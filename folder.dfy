/** Folders: the roles granted on them (owner roles on create, sharing gated
    on the owner's write role), the read/write/ancestor permission queries,
    and the destroy hook that unlinks a folder from every chatbot. */
module Folders {
  import opened JsonValues
  import opened Chatbots

  type UserId = string
  type FolderId = string

  datatype RoleName = R | W

  /** What a role is held on: everything (a global role), every folder (a
      role on the Folder class), or one folder. */
  datatype Scope = Global | AllFolders | OnFolder(id: FolderId)

  /** A role granted to a user (one row of the roles tables). */
  datatype Role = Role(user: UserId, name: RoleName, on: Scope)

  /** A folder row; `userId` is the optional owner. */
  datatype Folder = Folder(id: FolderId, userId: Option<UserId>)

  /** How `share_with` ends. */
  datatype ShareResult =
    | Shared
    | NotPermitted
      /** An ownerless folder: `user` is nil and `user.has_role?` raises NoMethodError. */
    | OwnerMissing

  /** The roles the owner is given when the folder is created. */
  function OwnerRoles(f: Folder): set<Role>
  {
    if f.userId.None? then {} else {Role(f.userId.value, R, OnFolder(f.id)), Role(f.userId.value, W, OnFolder(f.id))}
  }

  /** Does a role held on this scope apply to the folder? */
  predicate Covers(on: Scope, id: FolderId)
  {
    on.Global? || on.AllFolders? || on == OnFolder(id)
  }

  /** rolify's `has_role?(name, folder)`: a global role, a role on the
      Folder class and a role on that folder all count. */
  function HasRole(roles: set<Role>, user: UserId, name: RoleName, id: FolderId): (b: bool)
    ensures b <==> exists on :: Covers(on, id) && Role(user, name, on) in roles
  {
    assert Covers(Global, id) && Covers(AllFolders, id) && Covers(OnFolder(id), id);
    Role(user, name, Global) in roles || Role(user, name, AllFolders) in roles || Role(user, name, OnFolder(id)) in roles
  }

  /** `has_rights_to_read?`: everyone may read an ownerless folder; otherwise
      a user may read it when holding `r` on any scope covering it. */
  function HasRightsToRead(roles: set<Role>, f: Folder, user: UserId): (b: bool)
    ensures f.userId.None? ==> b
    ensures b <==> f.userId.None? || exists on :: Covers(on, f.id) && Role(user, R, on) in roles
  {
    f.userId.None? || HasRole(roles, user, R, f.id)
  }

  /** `has_rights_to_write?`: the same with `w`. */
  function HasRightsToWrite(roles: set<Role>, f: Folder, user: UserId): (b: bool)
    ensures f.userId.None? ==> b
    ensures b <==> f.userId.None? || exists on :: Covers(on, f.id) && Role(user, W, on) in roles
  {
    f.userId.None? || HasRole(roles, user, W, f.id)
  }

  /** The rights on a folder do not depend on the roles held on other
      folders: such roles neither grant nor take away anything. */
  lemma RightsIgnoreOtherFolders(roles: set<Role>, extra: set<Role>, f: Folder, user: UserId)
    requires forall g :: g in extra ==> g.on.OnFolder? && g.on.id != f.id
    ensures HasRightsToRead(roles + extra, f, user) == HasRightsToRead(roles, f, user)
    ensures HasRightsToWrite(roles + extra, f, user) == HasRightsToWrite(roles, f, user)
    ensures HasRightsToRead(roles - extra, f, user) == HasRightsToRead(roles, f, user)
    ensures HasRightsToWrite(roles - extra, f, user) == HasRightsToWrite(roles, f, user)
  {
  }

  /** The folder tree (`acts_as_tree`): each folder's parent, and a depth that
      strictly decreases towards the root, which makes the tree acyclic. */
  datatype Tree = Tree(parent: map<FolderId, FolderId>, depth: map<FolderId, nat>)

  ghost predicate WellFormed(t: Tree)
  {
    forall f :: f in t.parent ==>
      f in t.depth && t.parent[f] in t.depth && t.depth[t.parent[f]] < t.depth[f]
  }

  /** `ancestors`: the parent, the parent's parent, ... up to a root; the
      folder itself is not among them. */
  function Ancestors(t: Tree, f: FolderId): (r: seq<FolderId>)
    requires WellFormed(t)
    ensures r == [] <==> f !in t.parent
    ensures forall a :: a in r ==> a in t.depth && f in t.depth && t.depth[a] < t.depth[f]
    ensures f !in r
    decreases if f in t.depth then t.depth[f] else 0
  {
    if f in t.parent then [t.parent[f]] + Ancestors(t, t.parent[f]) else []
  }

  /** `allow_user_access?`: the user holds `r` on one of the ancestor
      folders themselves (global and class-wide roles are not consulted). */
  function AllowUserAccess(roles: set<Role>, t: Tree, f: FolderId, user: UserId): (b: bool)
    requires WellFormed(t)
    ensures b ==> f in t.parent
    ensures f in t.parent && Role(user, R, OnFolder(t.parent[f])) in roles ==> b
    ensures b ==> exists a :: a in Ancestors(t, f) && Role(user, R, OnFolder(a)) in roles
    ensures b ==> exists a :: a in t.depth && f in t.depth && t.depth[a] < t.depth[f] && Role(user, R, OnFolder(a)) in roles
  {
    var ancestors := Ancestors(t, f);
    assert f in t.parent ==> ancestors[0] == t.parent[f];
    exists a :: a in ancestors && Role(user, R, OnFolder(a)) in roles
  }

  /** The ancestors are exactly the parent chain: the first is the parent,
      each next one is the parent of the previous, and the last has none. */
  lemma {:induction false} AncestorsIsParentChain(t: Tree, f: FolderId)
    requires WellFormed(t)
    ensures Ancestors(t, f) == [] <==> f !in t.parent
    ensures f in t.parent ==> Ancestors(t, f)[0] == t.parent[f]
    ensures forall i :: 0 <= i < |Ancestors(t, f)| - 1 ==>
              Ancestors(t, f)[i] in t.parent && Ancestors(t, f)[i + 1] == t.parent[Ancestors(t, f)[i]]
    ensures Ancestors(t, f) != [] ==> Ancestors(t, f)[|Ancestors(t, f)| - 1] !in t.parent
    decreases if f in t.depth then t.depth[f] else 0
  {
    if f in t.parent {
      var p := t.parent[f];
      AncestorsIsParentChain(t, p);
      var rest := Ancestors(t, p);
      assert Ancestors(t, f) == [p] + rest;
      if rest != [] {
        assert rest[0] == t.parent[p];
      }
      forall i | 0 <= i < |Ancestors(t, f)| - 1
        ensures Ancestors(t, f)[i] in t.parent && Ancestors(t, f)[i + 1] == t.parent[Ancestors(t, f)[i]]
      {
        if i > 0 {
          assert Ancestors(t, f)[i] == rest[i - 1];
        }
      }
    }
  }

  /** The folder's own roles are never consulted: granting or revoking any
      role on the folder itself leaves `allow_user_access?` unchanged. */
  lemma FolderItselfNotConsulted(roles: set<Role>, t: Tree, f: FolderId, user: UserId, g: Role)
    requires WellFormed(t)
    requires g.on == OnFolder(f)
    ensures AllowUserAccess(roles + {g}, t, f, user) == AllowUserAccess(roles, t, f, user)
    ensures AllowUserAccess(roles - {g}, t, f, user) == AllowUserAccess(roles, t, f, user)
  {
  }

  /** A global or class-wide `r` lets its holder read every owned folder,
      yet it never gives access through ancestors. */
  lemma ScopedReadNotInherited(roles: set<Role>, t: Tree, f: Folder, user: UserId, on: Scope)
    requires WellFormed(t)
    requires !on.OnFolder?
    ensures HasRightsToRead(roles + {Role(user, R, on)}, f, user)
    ensures AllowUserAccess(roles + {Role(user, R, on)}, t, f.id, user) == AllowUserAccess(roles, t, f.id, user)
  {
    assert Covers(on, f.id) && Role(user, R, on) in roles + {Role(user, R, on)};
  }

  /** Read access inherits downwards: `r` on a folder, or access through its
      ancestors, gives access to each of its children. */
  lemma AccessInheritedByChildren(roles: set<Role>, t: Tree, f: FolderId, child: FolderId, user: UserId)
    requires WellFormed(t)
    requires child in t.parent && t.parent[child] == f
    requires Role(user, R, OnFolder(f)) in roles || AllowUserAccess(roles, t, f, user)
    ensures AllowUserAccess(roles, t, child, user)
  {
    assert f in Ancestors(t, child);
  }

  /** The roles of the folder records, updated in place by rolify's `add_role`. */
  class RoleTable {
    var roles: set<Role>

    constructor (roles: set<Role>)
      ensures this.roles == roles
    {
      this.roles := roles;
    }

    /** `add_role`: granting a role already held changes nothing. */
    method AddRole(user: UserId, name: RoleName, on: Scope)
      modifies this
      ensures roles == old(roles) + {Role(user, name, on)}
    {
      roles := roles + {Role(user, name, on)};
    }
  }

  /** `set_permissions_to_owner` (after_create): the owner gets `r` and `w`;
      an ownerless folder gets no roles. */
  method SetPermissionsToOwner(table: RoleTable, f: Folder)
    modifies table
    ensures table.roles == old(table.roles) + OwnerRoles(f)
    ensures f.userId.Some? ==>
              HasRightsToRead(table.roles, f, f.userId.value) && HasRightsToWrite(table.roles, f, f.userId.value)
    ensures f.userId.None? ==> table.roles == old(table.roles)
  {
    if f.userId.None? {
      return;
    }
    table.AddRole(f.userId.value, R, OnFolder(f.id));
    table.AddRole(f.userId.value, W, OnFolder(f.id));
  }

  /** `share_with(other)`: grants `r` and `w` to the other user only when the
      owner holds `w` on the folder. */
  method ShareWith(table: RoleTable, f: Folder, other: UserId) returns (result: ShareResult)
    modifies table
    ensures result == (if f.userId.None? then OwnerMissing
                       else if HasRole(old(table.roles), f.userId.value, W, f.id) then Shared
                       else NotPermitted)
    ensures result == Shared ==> table.roles == old(table.roles) + {Role(other, R, OnFolder(f.id)), Role(other, W, OnFolder(f.id))}
    ensures result == Shared ==> HasRightsToRead(table.roles, f, other) && HasRightsToWrite(table.roles, f, other)
    ensures result != Shared ==> table.roles == old(table.roles)
  {
    if f.userId.None? {
      return OwnerMissing;
    }
    if !HasRole(table.roles, f.userId.value, W, f.id) {
      return NotPermitted;
    }
    table.AddRole(other, R, OnFolder(f.id));
    table.AddRole(other, W, OnFolder(f.id));
    result := Shared;
  }

  /** A freshly created owned folder is readable and writable by its owner and
      by no one else through its own roles, and its owner holds `w`, so a
      later `share_with` goes through. */
  lemma OwnerRightsAfterCreate(roles: set<Role>, f: Folder, other: UserId)
    requires f.userId.Some?
    requires forall g :: g in roles ==> g.on != OnFolder(f.id)
    ensures HasRightsToRead(roles + OwnerRoles(f), f, f.userId.value)
    ensures HasRightsToWrite(roles + OwnerRoles(f), f, f.userId.value)
    ensures HasRole(roles + OwnerRoles(f), f.userId.value, W, f.id)
    ensures other != f.userId.value ==>
              Role(other, R, OnFolder(f.id)) !in roles + OwnerRoles(f) && Role(other, W, OnFolder(f.id)) !in roles + OwnerRoles(f)
  {
  }

  /** `Array#delete`: every element equal to `x` is removed, the others keep
      their order and multiplicity. */
  function RemoveAll<T(==,!new)>(a: seq<T>, x: T): (r: seq<T>)
    ensures x !in r
    ensures |r| <= |a|
    ensures forall y :: y != x ==> multiset(r)[y] == multiset(a)[y]
    ensures x !in a ==> r == a
  {
    if a == [] then []
    else
      assert a == [a[0]] + a[1..];
      (if a[0] == x then [] else [a[0]]) + RemoveAll(a[1..], x)
  }

  /** Removal works element by element, so the relative order of what is
      left is the original order. */
  lemma {:induction false} RemoveAllAppend<T(!new)>(a: seq<T>, b: seq<T>, x: T)
    ensures RemoveAll(a + b, x) == RemoveAll(a, x) + RemoveAll(b, x)
  {
    if a == [] {
      assert a + b == b;
    } else {
      var ab := a + b;
      assert ab[0] == a[0] && ab[1..] == a[1..] + b;
      RemoveAllAppend(a[1..], b, x);
      if a[0] == x {
        assert RemoveAll(ab, x) == RemoveAll(a[1..] + b, x);
        assert RemoveAll(a, x) == RemoveAll(a[1..], x);
      } else {
        assert RemoveAll(ab, x) == [a[0]] + RemoveAll(a[1..] + b, x);
        assert RemoveAll(a, x) == [a[0]] + RemoveAll(a[1..], x);
      }
    }
  }

  /** The unlink applied to one chatbot's `source`. */
  function UnlinkSource(source: map<string, Json>, id: FolderId): (r: map<string, Json>)
    ensures r.Keys == source.Keys
    ensures forall k :: k in source && k != "folder_id" ==> r[k] == source[k]
    ensures !Get(source, "folder_id").JArr? ==> r == source
    ensures Get(source, "folder_id").JArr? ==>
              Get(r, "folder_id") == JArr(RemoveAll(Get(source, "folder_id").items, JStr(id)))
  {
    var ids := Get(source, "folder_id");
    if ids.JArr? && JStr(id) in ids.items then source["folder_id" := JArr(RemoveAll(ids.items, JStr(id)))]
    else source
  }

  lemma UnlinkSourceIdempotent(source: map<string, Json>, id: FolderId)
    ensures UnlinkSource(UnlinkSource(source, id), id) == UnlinkSource(source, id)
  {
  }

  /** `unlink_from_chatbots` (before_destroy): walks every chatbot and drops
      the folder's id from each `source['folder_id']` array that holds it. */
  method UnlinkFromChatbots(bots: seq<Chatbot>, id: FolderId)
    modifies set b | b in bots
    ensures forall i :: 0 <= i < |bots| ==> bots[i].source == UnlinkSource(old(bots[i].source), id)
    ensures forall i :: 0 <= i < |bots| ==> bots[i].meta == old(bots[i].meta) && bots[i].energyCost == old(bots[i].energyCost)
    ensures forall i :: 0 <= i < |bots| && Get(bots[i].source, "folder_id").JArr? ==>
              JStr(id) !in Get(bots[i].source, "folder_id").items
  {
    for i := 0 to |bots|
      invariant forall j :: 0 <= j < |bots| ==>
                  bots[j].source == if bots[j] in bots[..i] then UnlinkSource(old(bots[j].source), id)
                                    else old(bots[j].source)
      invariant forall j :: 0 <= j < |bots| ==> bots[j].meta == old(bots[j].meta) && bots[j].energyCost == old(bots[j].energyCost)
    {
      var bot := bots[i];
      var ids := Get(bot.source, "folder_id");
      if ids.JArr? && JStr(id) in ids.items {
        bot.source := bot.source["folder_id" := JArr(RemoveAll(ids.items, JStr(id)))];
      }
      UnlinkSourceIdempotent(old(bot.source), id);
      assert bots[..i + 1] == bots[..i] + [bot];
    }
    assert bots[..|bots|] == bots;
    forall j | 0 <= j < |bots| && Get(bots[j].source, "folder_id").JArr?
      ensures JStr(id) !in Get(bots[j].source, "folder_id").items
    {
      assert bots[j].source == UnlinkSource(old(bots[j].source), id);
    }
  }
}
