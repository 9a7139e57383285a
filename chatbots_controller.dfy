/** The chatbot controller's own logic: the whitelisted copy of meta fields
    from the request, the selected-feature titles merge or default, the QA
    metadata defaults, the `energy_cost` guard, the choice of conversation id
    and the pairing done by `index`. */
module ChatbotsController {
  import opened JsonValues
  import opened Chatbots

  type Params = map<string, Json>

  /** The meta keys `set_meta_fields` copies from the request. */
  const MetaFields: seq<string> :=
    ["language", "tone", "chain_features", "assistant", "experts", "length", "selected_features"]

  const TitlesKey: string := "selected_features_titles"
  const SelectedKey: string := "selected_features"

  const DefaultLanguage: string := "\U{7E41}\U{9AD4}\U{4E2D}\U{6587}"
  const DefaultTone: string := "\U{5C08}\U{696D}"
  const DefaultLength: string := "normal"

  // ---------------------------------------------------------------- meta fields

  /** `meta` after copying each of `fields` that is present in the params. */
  function WithFields(meta: map<string, Json>, params: Params, fields: seq<string>): (r: map<string, Json>)
    ensures forall k :: k in r <==> k in meta || (k in fields && Present(Get(params, k)))
    ensures forall k :: k in r ==>
              r[k] == if k in fields && Present(Get(params, k)) then Get(params, k) else meta[k]
    decreases |fields|
  {
    if fields == [] then meta
    else
      var w := WithFields(meta, params, fields[..|fields| - 1]);
      var f := fields[|fields| - 1];
      assert forall k :: k in fields <==> k in fields[..|fields| - 1] || k == f;
      if Present(Get(params, f)) then w[f := Get(params, f)] else w
  }

  /** The loop of `set_meta_fields`, over any list of keys. */
  method CopyPresentFields(bot: Chatbot, params: Params, fields: seq<string>)
    modifies bot
    ensures bot.meta == WithFields(old(bot.meta), params, fields)
    ensures bot.source == old(bot.source) && bot.energyCost == old(bot.energyCost)
  {
    for i := 0 to |fields|
      invariant bot.meta == WithFields(old(bot.meta), params, fields[..i])
      invariant bot.source == old(bot.source) && bot.energyCost == old(bot.energyCost)
    {
      var field := fields[i];
      if Present(Get(params, field)) {
        bot.meta := bot.meta[field := Get(params, field)];
      }
      assert fields[..i + 1][..i] == fields[..i];
    }
    assert fields[..|fields|] == fields;
  }

  /** `set_meta_fields`: writes exactly the whitelisted keys that are present
      in the params; every other meta key keeps its value. */
  method SetMetaFields(bot: Chatbot, params: Params)
    modifies bot
    ensures bot.meta == WithFields(old(bot.meta), params, MetaFields)
    ensures bot.source == old(bot.source) && bot.energyCost == old(bot.energyCost)
  {
    CopyPresentFields(bot, params, MetaFields);
  }

  /** What `set_meta_fields` promises: a key outside the whitelist, or one
      the params leave blank, is untouched. */
  lemma MetaFieldsOnlyWhitelisted(meta: map<string, Json>, params: Params, k: string)
    requires k !in MetaFields || Blank(Get(params, k))
    ensures k in WithFields(meta, params, MetaFields) <==> k in meta
    ensures k in meta ==> WithFields(meta, params, MetaFields)[k] == meta[k]
  {
  }

  // ---------------------------------------------------------------- titles

  /** `selected.include?(feature)` on the stored `selected_features`: array
      membership, substring of a string, key of a hash; on nil, a number or
      a boolean there is no `include?` and Ruby raises (None). */
  function Includes(selected: Json, feature: string): Option<bool>
  {
    match selected
    case JArr(a) => Some(JStr(feature) in a)
    case JStr(s) => Some(exists i :: 0 <= i <= |s| - |feature| && OccursAt(s, feature, i))
    case JObj(m) => Some(feature in m)
    case _ => None
  }

  predicate OccursAt(s: string, part: string, i: int)
  {
    0 <= i <= |s| - |part| && s[i..i + |part|] == part
  }

  predicate Selected(selected: Json, feature: string)
  {
    Includes(selected, feature) == Some(true)
  }

  /** The supplied titles, among `domain`, whose feature is selected. */
  function Chosen(titles: map<string, Json>, selected: Json, domain: set<string>): map<string, Json>
  {
    map f | f in domain && f in titles && Selected(selected, f) :: titles[f]
  }

  /** The result of `set_default_titles_if_absent`: whether it raised, and
      the meta it leaves. */
  datatype MetaUpdate = MetaUpdate(raised: bool, meta: map<string, Json>)

  /** `meta['selected_features_titles'] ||= {}`. */
  function WithTitlesHash(meta: map<string, Json>): map<string, Json>
  {
    if Truthy(Get(meta, TitlesKey)) then meta else meta[TitlesKey := JObj(map[])]
  }

  /** The loop of `set_default_titles_if_absent` over the given titles, on
      the stored titles `current` (never nil or false: `||= {}` ran first).
      Raises (true) when the stored `selected_features` has no `include?`,
      or when a selected feature is to be written into stored titles that are
      not a hash. */
  function MergeTitles(current: Json, titles: map<string, Json>, selected: Json): (r: (bool, Json))
  {
    if |titles| == 0 then (false, current)
    else if Includes(selected, "").None? then (true, current)
    else
      var chosen := Chosen(titles, selected, titles.Keys);
      if current.JObj? then (false, JObj(current.fields + chosen))
      else (chosen != map[], current)
  }

  /** `set_default_titles_if_absent`. With titles in the params (a hash, or
      `permit!` raises), they are merged into the stored titles by
      MergeTitles; without them, `defaults` are installed only when the
      stored titles are blank. */
  function ApplyTitles(meta: map<string, Json>, params: Params, defaults: Json): (r: MetaUpdate)
    ensures forall k :: k != TitlesKey ==> (k in r.meta <==> k in meta)
    ensures forall k :: k != TitlesKey && k in meta ==> r.meta[k] == meta[k]
    ensures !Present(Get(params, TitlesKey)) ==> !r.raised
    ensures !Present(Get(params, TitlesKey)) && Blank(Get(meta, TitlesKey)) ==> r.meta == meta[TitlesKey := defaults]
    ensures !Present(Get(params, TitlesKey)) && !Blank(Get(meta, TitlesKey)) ==> r.meta == meta
    ensures Present(Get(params, TitlesKey)) && !Get(params, TitlesKey).JObj? ==> r.raised && r.meta == meta
    ensures Present(Get(params, TitlesKey)) && Get(params, TitlesKey).JObj? && Includes(Get(meta, SelectedKey), "").None? ==> r.raised
  {
    var given := Get(params, TitlesKey);
    if Present(given) then
      if !given.JObj? then MetaUpdate(true, meta)
      else
        var m1 := WithTitlesHash(meta);
        var merged := MergeTitles(m1[TitlesKey], given.fields, Get(meta, SelectedKey));
        MetaUpdate(merged.0, if merged.0 then m1 else m1[TitlesKey := merged.1])
    else if Blank(Get(meta, TitlesKey)) then MetaUpdate(false, meta[TitlesKey := defaults])
    else MetaUpdate(false, meta)
  }

  lemma ChosenStep(titles: map<string, Json>, selected: Json, done: set<string>, f: string)
    requires f in titles
    ensures Chosen(titles, selected, done + {f})
         == if Selected(selected, f) then Chosen(titles, selected, done)[f := titles[f]]
            else Chosen(titles, selected, done)
  {
  }

  /** The merge stores a title for exactly the selected features among those
      given, keeps the titles stored before for every other feature, and adds
      nothing else; when the stored titles are not a hash it succeeds only
      if no given feature is selected, and then changes nothing. */
  lemma MergeStoresSelectedTitles(meta: map<string, Json>, params: Params, defaults: Json)
    requires Get(params, TitlesKey).JObj? && |Get(params, TitlesKey).fields| != 0
    requires !ApplyTitles(meta, params, defaults).raised
    ensures var given := Get(params, TitlesKey).fields;
            var selected := Get(meta, SelectedKey);
            var stored := Get(ApplyTitles(meta, params, defaults).meta, TitlesKey);
            var before := if Get(meta, TitlesKey).JObj? then Get(meta, TitlesKey).fields else map[];
            if stored.JObj? then
              && (forall f :: f in given && Selected(selected, f) ==> f in stored.fields && stored.fields[f] == given[f])
              && (forall f :: f in stored.fields && !(f in given && Selected(selected, f)) ==>
                    f in before && stored.fields[f] == before[f])
              && (forall f :: f in before ==> f in stored.fields)
            else
              ApplyTitles(meta, params, defaults).meta == meta && forall f :: f in given ==> !Selected(selected, f)
  {
    var given := Get(params, TitlesKey).fields;
    var selected := Get(meta, SelectedKey);
    var m1 := WithTitlesHash(meta);
    var current := m1[TitlesKey];
    var chosen := Chosen(given, selected, given.Keys);
    var r := ApplyTitles(meta, params, defaults);
    assert Present(Get(params, TitlesKey));
    assert Includes(selected, "").Some?;
    if current.JObj? {
      assert r.meta == m1[TitlesKey := JObj(current.fields + chosen)];
      assert current.fields == if Get(meta, TitlesKey).JObj? then Get(meta, TitlesKey).fields else map[];
    } else {
      assert m1 == meta;
      assert chosen == map[];
      assert r.meta == m1[TitlesKey := current];
      assert m1[TitlesKey := current] == m1;
      forall f | f in given ensures !Selected(selected, f) {
        assert Selected(selected, f) ==> f in chosen;
      }
    }
  }

  /** What the merge loop knows after handling the features in `done`. */
  ghost predicate MergeInvariant(current: Json, titles: map<string, Json>, selected: Json, done: set<string>, merged: Json)
  {
    && done <= titles.Keys
    && (done != {} ==> Includes(selected, "").Some?)
    && (current.JObj? ==> merged == JObj(current.fields + Chosen(titles, selected, done)))
    && (!current.JObj? ==> merged == current && Chosen(titles, selected, done) == map[])
  }

  lemma MergeInvariantStep(current: Json, titles: map<string, Json>, selected: Json, done: set<string>, merged: Json, feature: string)
    requires MergeInvariant(current, titles, selected, done, merged)
    requires feature in titles && Includes(selected, feature).Some?
    requires Selected(selected, feature) ==> merged.JObj?
    ensures MergeInvariant(current, titles, selected, done + {feature},
              if Selected(selected, feature) then JObj(merged.fields[feature := titles[feature]]) else merged)
  {
    ChosenStep(titles, selected, done, feature);
  }

  lemma MergeInvariantDone(current: Json, titles: map<string, Json>, selected: Json, merged: Json)
    requires MergeInvariant(current, titles, selected, titles.Keys, merged)
    ensures MergeTitles(current, titles, selected) == (false, merged)
  {
    if current.JObj? && |titles| == 0 {
      assert Chosen(titles, selected, titles.Keys) == map[];
      assert current.fields + map[] == current.fields;
    }
  }

  lemma MergeInvariantStart(current: Json, titles: map<string, Json>, selected: Json)
    ensures MergeInvariant(current, titles, selected, {}, current)
  {
    assert Chosen(titles, selected, {}) == map[];
    if current.JObj? {
      assert current.fields + map[] == current.fields;
    }
  }

  /** The loop stops at a feature that must raise: `selected` has no
      `include?`, or a selected feature meets stored titles that are not a hash. */
  lemma MergeInvariantRaise(current: Json, titles: map<string, Json>, selected: Json, done: set<string>, merged: Json, feature: string)
    requires MergeInvariant(current, titles, selected, done, merged)
    requires feature in titles
    requires Includes(selected, feature).None? || (Selected(selected, feature) && !merged.JObj?)
    ensures MergeTitles(current, titles, selected) == (true, current)
  {
    if Includes(selected, feature).Some? {
      assert feature in Chosen(titles, selected, titles.Keys);
    }
  }

  /** The merge loop itself, as `set_default_titles_if_absent` runs it. */
  method MergeTitlesLoop(current: Json, titles: map<string, Json>, selected: Json) returns (raised: bool, merged: Json)
    ensures (raised, merged) == MergeTitles(current, titles, selected)
  {
    merged := current;
    var keys := titles.Keys;
    ghost var done: set<string> := {};
    MergeInvariantStart(current, titles, selected);
    while keys != {}
      invariant keys + done == titles.Keys && keys !! done
      invariant MergeInvariant(current, titles, selected, done, merged)
      decreases keys
    {
      var feature :| feature in keys;
      var included := Includes(selected, feature);
      if included.None? || (included.value && !merged.JObj?) {
        MergeInvariantRaise(current, titles, selected, done, merged, feature);
        return true, current;
      }
      MergeInvariantStep(current, titles, selected, done, merged, feature);
      if included.value {
        merged := JObj(merged.fields[feature := titles[feature]]);
      }
      keys := keys - {feature};
      done := done + {feature};
    }
    MergeInvariantDone(current, titles, selected, merged);
    raised := false;
  }

  /** `set_default_titles_if_absent` on the chatbot; `raised` tells whether
      Ruby would have raised part-way. */
  method SetDefaultTitlesIfAbsent(bot: Chatbot, params: Params, defaults: Json) returns (raised: bool)
    modifies bot
    ensures MetaUpdate(raised, bot.meta) == ApplyTitles(old(bot.meta), params, defaults)
    ensures bot.source == old(bot.source) && bot.energyCost == old(bot.energyCost)
  {
    var given := Get(params, TitlesKey);
    if !Present(given) {
      if Blank(Get(bot.meta, TitlesKey)) {
        bot.meta := bot.meta[TitlesKey := defaults];
      }
      return false;
    }
    if !given.JObj? {
      return true;
    }
    if !Truthy(Get(bot.meta, TitlesKey)) {
      bot.meta := bot.meta[TitlesKey := JObj(map[])];
    }
    var merged;
    raised, merged := MergeTitlesLoop(bot.meta[TitlesKey], given.fields, Get(bot.meta, SelectedKey));
    if !raised {
      bot.meta := bot.meta[TitlesKey := merged];
    }
  }

  // ---------------------------------------------------------------- small rules

  /** The metadata `assistantQA` and `general_user_chat_with_bot` send to the
      QA service: `meta['x'] || default` for language, tone and length. */
  function QaMetadata(meta: map<string, Json>, documentIds: seq<Json>): (r: map<string, Json>)
    ensures r.Keys == {"document_id", "language", "tone", "length"}
    ensures r["document_id"] == JArr(documentIds)
    ensures Truthy(Get(meta, "language")) ==> r["language"] == meta["language"]
    ensures !Truthy(Get(meta, "language")) ==> r["language"] == JStr(DefaultLanguage)
    ensures Truthy(Get(meta, "tone")) ==> r["tone"] == meta["tone"]
    ensures !Truthy(Get(meta, "tone")) ==> r["tone"] == JStr(DefaultTone)
    ensures Truthy(Get(meta, "length")) ==> r["length"] == meta["length"]
    ensures !Truthy(Get(meta, "length")) ==> r["length"] == JStr(DefaultLength)
  {
    map["document_id" := JArr(documentIds),
        "language" := Or(Get(meta, "language"), JStr(DefaultLanguage)),
        "tone" := Or(Get(meta, "tone"), JStr(DefaultTone)),
        "length" := Or(Get(meta, "length"), JStr(DefaultLength))]
  }

  /** The `energy_cost` guard in `create`: the cost is copied from the params
      only when `is_public` is the string 'true'. */
  function EnergyCostOnCreate(current: Json, params: Params): (r: Json)
    ensures Get(params, "is_public") == JStr("true") ==> r == Get(params, "energy_cost")
    ensures Get(params, "is_public") != JStr("true") ==> r == current
  {
    var isPublic := Get(params, "is_public");
    assert !IsSpace("true"[0]);
    if Present(isPublic) && isPublic == JStr("true") then Get(params, "energy_cost") else current
  }

  /** A Message row as `get_conversation_id` sees it. */
  datatype Message = Message(user: string, chatbotId: string, difyConversationId: Option<string>)

  predicate Matches(m: Message, user: string, chatbotId: string)
  {
    m.user == user && m.chatbotId == chatbotId
  }

  /** The position of `Message.where(user:, chatbot_id:).last`. */
  function LastMatchIndex(messages: seq<Message>, user: string, chatbotId: string): (r: Option<nat>)
    ensures r.None? <==> forall i :: 0 <= i < |messages| ==> !Matches(messages[i], user, chatbotId)
    ensures r.Some? ==> r.value < |messages| && Matches(messages[r.value], user, chatbotId)
    ensures r.Some? ==> forall j :: r.value < j < |messages| ==> !Matches(messages[j], user, chatbotId)
    decreases |messages|
  {
    if messages == [] then None
    else if Matches(messages[|messages| - 1], user, chatbotId) then Some(|messages| - 1)
    else LastMatchIndex(messages[..|messages| - 1], user, chatbotId)
  }

  /** The conversation id `send_dify_request` forwards: none for a new
      conversation, else the last such message's `dify_conversation_id`
      (`&.`: none when there is no such message). */
  function ConversationId(newConversation: bool, messages: seq<Message>, user: string, chatbotId: string): (r: Option<string>)
    ensures newConversation ==> r == None
    ensures !newConversation && (forall i :: 0 <= i < |messages| ==> !Matches(messages[i], user, chatbotId)) ==> r == None
    ensures !newConversation && r.Some? ==>
              exists i :: 0 <= i < |messages| && Matches(messages[i], user, chatbotId)
                       && messages[i].difyConversationId == r
                       && forall j :: i < j < |messages| ==> !Matches(messages[j], user, chatbotId)
    ensures !newConversation ==>
              forall i :: 0 <= i < |messages| && Matches(messages[i], user, chatbotId)
                          && (forall j :: i < j < |messages| ==> !Matches(messages[j], user, chatbotId))
                          ==> r == messages[i].difyConversationId
  {
    if newConversation then None
    else match LastMatchIndex(messages, user, chatbotId)
      case None => None
      case Some(i) => messages[i].difyConversationId
  }

  /** One element of `index`'s `chatbots` list. */
  datatype IndexEntry<T> = IndexEntry(chatbot: T, folders: seq<Json>)

  /** `index`: every chatbot, in order, paired with an empty folder list. */
  function IndexEntries<T>(bots: seq<T>): (r: seq<IndexEntry<T>>)
    ensures |r| == |bots|
    ensures forall i :: 0 <= i < |r| ==> r[i].chatbot == bots[i] && r[i].folders == []
  {
    seq(|bots|, i requires 0 <= i < |bots| => IndexEntry(bots[i], []))
  }
}
