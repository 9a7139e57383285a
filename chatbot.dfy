/** The Chatbot record: the jsonb columns the controllers and the folder
    destroy hook rewrite in place. */
module Chatbots {
  import opened JsonValues

  class Chatbot {
    const id: string
    /** `source`, whose `folder_id` entry lists the folders the bot reads. */
    var source: map<string, Json>
    /** `meta`: language, tone, selected features and their titles, ... */
    var meta: map<string, Json>
    var energyCost: Json

    constructor (id: string, source: map<string, Json>, meta: map<string, Json>)
      ensures this.id == id && this.source == source && this.meta == meta && energyCost == JNull
    {
      this.id := id;
      this.source := source;
      this.meta := meta;
      energyCost := JNull;
    }
  }
}
