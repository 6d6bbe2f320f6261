/**
 * The notificator: turns each event into one payload and delivers it to the
 * event's recipients through the webhook processor.
 */
module Notifications {
  import opened Wrappers
  import opened Discord
  import opened BuildContext
  import opened Events
  import opened Delivery

  const NotificatorType := "DiscordNotificator"
  const NotificatorDisplayName := "Discord WebHook"

  /** What the notificator writes to its error log. */
  datatype LogEntry = WebHookUrlNotSet(userName: string) | SendFailed

  /** `n` copies of `x`. */
  function Repeat<T>(x: T, n: nat): (r: seq<T>)
    ensures |r| == n && forall j | 0 <= j < n :: r[j] == x
  {
    if n == 0 then [] else Repeat(x, n - 1) + [x]
  }

  class DiscordNotificator {
    const processor: WebHookProcessor
    ghost var log: seq<LogEntry>

    constructor ()
      ensures fresh(processor) && processor.posts == [] && log == []
    {
      processor := new WebHookProcessor();
      log := [];
    }

    /**
     * Sends `payload` to the recipients in iteration order. Before each send a
     * non-empty username of the recipient overwrites the payload's username,
     * and stays there for later recipients. A failed send is logged and the
     * loop goes on; the first recipient without a URL is logged and ends the
     * whole delivery, so no later recipient is served.
     */
    method ProcessNotify(payload: Payload, users: seq<User>)
      modifies this`log, payload, processor
      ensures payload.embeds == old(payload.embeds)
      ensures processor.posts == old(processor.posts) + Deliveries(old(payload.username), payload.embeds, users, 0)
      ensures payload.username == LatestUsername(old(payload.username), users, FirstMissingUrl(users))
      ensures FirstMissingUrl(users) == |users| ==>
                exists failed: nat | failed <= FirstMissingUrl(users) :: log == old(log) + Repeat(SendFailed, failed)
      ensures FirstMissingUrl(users) < |users| ==>
                exists failed: nat | failed <= FirstMissingUrl(users) :: log == old(log) + Repeat(SendFailed, failed) +
                                        [WebHookUrlNotSet(users[FirstMissingUrl(users)].name)]
    {
      ghost var initial := payload.username;
      ghost var embeds := payload.embeds;
      ghost var posts0 := processor.posts;
      ghost var missing := FirstMissingUrl(users);
      ghost var sent: seq<Post> := [];
      ghost var failed := 0;
      var i := 0;
      while i < |users|
        invariant i <= missing
        invariant payload.embeds == embeds
        invariant payload.username == LatestUsername(initial, users, i)
        invariant processor.posts == posts0 + sent
        invariant sent + Deliveries(LatestUsername(initial, users, i), embeds, users, i) ==
                  Deliveries(initial, embeds, users, 0)
        invariant failed <= i
        invariant log == old(log) + Repeat(SendFailed, failed)
        decreases |users| - i
      {
        var user := users[i];
        var webHookUrl := user.webHookUrl;
        var username := user.username;
        if webHookUrl.None? || webHookUrl.value == "" {
          log := log + [WebHookUrlNotSet(user.name)];
          return;
        }
        DeliveriesAdvance(initial, embeds, users, i, sent);
        if username.Some? && username.value != "" {
          payload.username := username;
        }
        var ok := processor.SendDiscordWebHook(webHookUrl.value, payload);
        sent := sent + [Post(webHookUrl.value, payload.username, embeds)];
        if !ok {
          log := log + [SendFailed];
          failed := failed + 1;
        }
        i := i + 1;
      }
    }

    /**
     * Handles one event: a mute event without a project is dropped; any other
     * event becomes a fresh payload with one embed, with the build-context
     * fields for events about a running build, delivered to `users`.
     */
    method Notify(projects: seq<Project>, e: Event, users: seq<User>)
      modifies this`log, processor
      ensures processor.posts == old(processor.posts) +
                match MessageFor(projects, e)
                case None => []
                case Some(m) => Deliveries(None, [m], users, 0)
      ensures MessageFor(projects, e).None? ==> log == old(log)
      ensures MessageFor(projects, e).Some? && FirstMissingUrl(users) == |users| ==>
                exists failed: nat | failed <= FirstMissingUrl(users) :: log == old(log) + Repeat(SendFailed, failed)
      ensures MessageFor(projects, e).Some? && FirstMissingUrl(users) < |users| ==>
                exists failed: nat | failed <= FirstMissingUrl(users) :: log == old(log) + Repeat(SendFailed, failed) +
                                        [WebHookUrlNotSet(users[FirstMissingUrl(users)].name)]
    {
      if e.IsSkipped() {
        return;
      }
      var fields: seq<Field> := [];
      if e.IsRunningBuildEvent() {
        fields := BuildFieldsForRunningBuild(projects, e.build);
      }
      var payload := new Payload();
      payload.SetEmbeds([EmbedFor(e, fields)]);
      ProcessNotify(payload, users);
    }
  }
}
