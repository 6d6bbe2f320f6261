/**
 * The Discord webhook payload as the notificator builds and mutates it, and the
 * webhook processor that posts it. The processor's HTTP request and JSON
 * serialisation are not modelled: a send appends what would be posted to a
 * ghost trace and reports an arbitrary success flag.
 */
module Discord {
  import opened Wrappers

  /** The embed colours the notificator uses; their RGB values are not modelled. */
  datatype Color = Blue | Green | Red | Orange

  /** One embed field: shown in insertion order, `inline` places it beside its neighbours. */
  datatype Field = Field(name: string, value: string, inline: bool)

  /**
   * One rich embed. The notificator never sets timestamp, footer or thumbnail,
   * so their inner structure is reduced to an optional string.
   */
  datatype Embed = Embed(
    title: string,
    description: string,
    url: string,
    color: Color,
    timestamp: Option<string>,
    footer: Option<string>,
    thumbnail: Option<string>,
    fields: seq<Field>)

  /** What one send posts: the target URL and the payload as it stood at that moment. */
  datatype Post = Post(url: string, username: Option<string>, embeds: seq<Embed>)

  /** The webhook payload; the delivery loop overwrites its username in place. */
  class Payload {
    var username: Option<string>
    var embeds: seq<Embed>

    constructor ()
      ensures username == None && embeds == []
    {
      username := None;
      embeds := [];
    }

    method SetEmbeds(embeds: seq<Embed>)
      modifies this
      ensures this.embeds == embeds && username == old(username)
    {
      this.embeds := embeds;
    }
  }

  /** Posts payloads to webhook URLs; `posts` records every send in order. */
  class WebHookProcessor {
    ghost var posts: seq<Post>

    constructor ()
      ensures posts == []
    {
      posts := [];
    }

    /**
     * One send. Whether the request succeeds (no IOException or
     * URISyntaxException) is outside the model, so `ok` is arbitrary.
     */
    method SendDiscordWebHook(url: string, payload: Payload) returns (ok: bool)
      modifies this
      ensures posts == old(posts) + [Post(url, payload.username, payload.embeds)]
    {
      posts := posts + [Post(url, payload.username, payload.embeds)];
      ok :| true;
    }
  }
}
