# TeamCity Discord notificator, modelled in Dafny

This project models the core of `DiscordNotificator`, the TeamCity notificator that turns
CI server events into Discord webhook messages. It covers three parts:

- **Build-context fields** (`BuildContext`). `GetProjectFromRunningBuild` finds the build's project by a
  first-match linear search over the server's project list, and returns at the first hit.
  `BuildFieldsForRunningBuild` appends the Project, Build and Branch fields, plus a Comment field when the
  build has a comment. The search is proved to return `FindProject`'s result, which is the first match.
  The builder is proved to return `ContextFields`. When no project matches, the Project value is `"<No data available>"`. When there is
  no branch, or the branch is TeamCity's default branch, the Branch value is `"Default"`.
- **Event-to-message mapping** (`Events`). The host's nineteen `notify*` callbacks become one closed
  `Event` datatype. `Title`, `Description` and `HandlerColor` give each handler's fixed title,
  description text and colour, one case per handler, and `EmbedFor` assembles them into the embed.
  `MessageFor` gives the one embed an event produces, or `None` for a mute or unmute event whose mute
  has no project. `ExpectedColor` is the colour table stated by event kind alone, and the handlers'
  colours are proved to agree with it.
- **Delivery loop** (`Notifications.DiscordNotificator.ProcessNotify`). The loop walks the recipients in
  iteration order. Before each send, a recipient's non-empty username overwrites the shared payload's
  username, and that override is never reset. The loop ignores whether a send succeeded. It returns from
  the whole loop at the first recipient whose webhook URL is unset or empty. The webhook processor is
  a class whose send appends the posted URL, username and embeds to a ghost trace and reports an
  arbitrary result. `Delivery.Deliveries` states what the trace gains, and the lemmas in `Delivery`
  prove three things about it. Exactly the recipients before the first one without a URL receive a
  post. The i-th post carries the most recent non-empty username among recipients 0..i, which
  `LatestUsername` defines independently by searching back from the end. Once a recipient has
  supplied a non-empty username, later recipients with an unset or empty username leave it in force.

The model keeps the delivery loop's early return at the first recipient without a URL
(tc-discord-webhooks-server/src/main/java/com/github/playerforcehd/tcdiscordwebhooks/notificator/DiscordNotificator.java:131): later recipients get nothing, rather than only that recipient being skipped.
The model also keeps the texts of the build-problem responsibility-changed message as written
(tc-discord-webhooks-server/src/main/java/com/github/playerforcehd/tcdiscordwebhooks/notificator/DiscordNotificator.java:475-476): its title reads "Responsibility assigned" and its description speaks of tests.

## Model

| member | source | states |
|---|---|---|
| `Discord.Payload.constructor` | tc-discord-webhooks-server/src/main/java/com/github/playerforcehd/tcdiscordwebhooks/notificator/DiscordNotificator.java:197 | a new payload has no username override and no embeds |
| `Discord.Payload.SetEmbeds` | tc-discord-webhooks-server/src/main/java/com/github/playerforcehd/tcdiscordwebhooks/notificator/DiscordNotificator.java:198-209 | replaces the embeds and leaves the username alone |
| `Discord.WebHookProcessor.constructor` | tc-discord-webhooks-server/src/main/java/com/github/playerforcehd/tcdiscordwebhooks/notificator/DiscordNotificator.java:99-100 | the notificator's webhook processor starts having sent nothing |
| `Discord.WebHookProcessor.SendDiscordWebHook` | tc-discord-webhooks-server/src/main/java/com/github/playerforcehd/tcdiscordwebhooks/notificator/DiscordNotificator.java:136-140 | one send records exactly one post of the payload's current username and embeds to the URL; success is arbitrary |
| `BuildContext.FirstMatch` | tc-discord-webhooks-server/src/main/java/com/github/playerforcehd/tcdiscordwebhooks/notificator/DiscordNotificator.java:151-158 | the index found has the build's project id, and no earlier project has it; it is the length of the list when nothing matches |
| `BuildContext.FindProject` | tc-discord-webhooks-server/src/main/java/com/github/playerforcehd/tcdiscordwebhooks/notificator/DiscordNotificator.java:151-158 | absent exactly when no project has the id; otherwise the first project in list order with that id |
| `BuildContext.GetProjectFromRunningBuild` | tc-discord-webhooks-server/src/main/java/com/github/playerforcehd/tcdiscordwebhooks/notificator/DiscordNotificator.java:151-158 | the search loop returns null exactly when no project matches, and otherwise the first matching project |
| `BuildContext.ContextFields` | tc-discord-webhooks-server/src/main/java/com/github/playerforcehd/tcdiscordwebhooks/notificator/DiscordNotificator.java:167-190 | 3 fields, or 4 exactly when a comment exists, in the order Project, Build, Branch, Comment; the first three are inline and Comment is not; the Project value is the first match's name or the no-data sentinel; the Branch value is "Default" for no branch or the default branch, otherwise the display name |
| `BuildContext.BuildFieldsForRunningBuild` | tc-discord-webhooks-server/src/main/java/com/github/playerforcehd/tcdiscordwebhooks/notificator/DiscordNotificator.java:167-190 | the appended field list equals the context fields |
| `Events.HandlerColor` | tc-discord-webhooks-server/src/main/java/com/github/playerforcehd/tcdiscordwebhooks/notificator/DiscordNotificator.java:203-583 | the colour each handler passes agrees with the colour table stated by event kind alone: Blue for build started, Green for build successful, Red for build failed, failed to start, labeling failed and failing, Orange for everything else |
| `Events.EmbedFor` | tc-discord-webhooks-server/src/main/java/com/github/playerforcehd/tcdiscordwebhooks/notificator/DiscordNotificator.java:193-583 | every embed has url "" and no timestamp, footer or thumbnail; its colour follows the kind-only colour table; running-build events carry the given context fields and all others none |
| `Events.MessageFor` | tc-discord-webhooks-server/src/main/java/com/github/playerforcehd/tcdiscordwebhooks/notificator/DiscordNotificator.java:193-583 | no message exactly for a mute or unmute event whose mute has no project; otherwise one embed with the colour table's colour, and the build-context fields exactly for running-build events |
| `EventExamples.BuildStartedOnDefaultBranch` | tc-discord-webhooks-server/src/main/java/com/github/playerforcehd/tcdiscordwebhooks/notificator/DiscordNotificator.java:194-211 | a build started on the default branch of a known project gives a blue embed with the fields Project "Foo", Build, Branch "Default" |
| `EventExamples.BuildFailedOnFeatureBranch` | tc-discord-webhooks-server/src/main/java/com/github/playerforcehd/tcdiscordwebhooks/notificator/DiscordNotificator.java:234-251 | a failed build of an unknown project on a feature branch with a comment gives a red embed with the sentinel project, the branch display name and the comment as fourth, non-inline field |
| `Delivery.FirstMissingUrl` | tc-discord-webhooks-server/src/main/java/com/github/playerforcehd/tcdiscordwebhooks/notificator/DiscordNotificator.java:126-132 | every recipient before the index has a non-empty URL, and the recipient at it (if any) does not |
| `Delivery.DeliveriesLength` | tc-discord-webhooks-server/src/main/java/com/github/playerforcehd/tcdiscordwebhooks/notificator/DiscordNotificator.java:125-141 | the number of posts is the number of recipients before the first one without a URL |
| `Delivery.MissingUrlEndsDelivery` | tc-discord-webhooks-server/src/main/java/com/github/playerforcehd/tcdiscordwebhooks/notificator/DiscordNotificator.java:129-132 | a recipient without a URL and every recipient after it receive no post |
| `Delivery.DeliveriesAdvance` | tc-discord-webhooks-server/src/main/java/com/github/playerforcehd/tcdiscordwebhooks/notificator/DiscordNotificator.java:126-137 | serving one more recipient that has a URL appends exactly its post, with the username then in force, and leaves the rest to the following recipients |
| `Delivery.DeliveryAt` | tc-discord-webhooks-server/src/main/java/com/github/playerforcehd/tcdiscordwebhooks/notificator/DiscordNotificator.java:126-137 | the i-th post goes to the i-th recipient's URL with the unchanged embeds and the most recent non-empty username among recipients 0..i (or the payload's original one) |
| `Delivery.LastOverrideInForce` | tc-discord-webhooks-server/src/main/java/com/github/playerforcehd/tcdiscordwebhooks/notificator/DiscordNotificator.java:133-135 | the username in force after a prefix of recipients is that of the last recipient in it with a non-empty username; recipients after it with unset or empty usernames do not change it |
| `Delivery.StickyFromRecipient` | tc-discord-webhooks-server/src/main/java/com/github/playerforcehd/tcdiscordwebhooks/notificator/DiscordNotificator.java:133-135 | once any recipient has supplied a non-empty username, a non-empty username is in force for every later recipient |
| `Delivery.OverrideIsSticky` | tc-discord-webhooks-server/src/main/java/com/github/playerforcehd/tcdiscordwebhooks/notificator/DiscordNotificator.java:133-135 | for a payload that already carries a non-empty username when the loop starts (never the case for the notificator's fresh payloads), recipients with unset or empty usernames never clear it |
| `Delivery.LatestUsernameOrigin` | tc-discord-webhooks-server/src/main/java/com/github/playerforcehd/tcdiscordwebhooks/notificator/DiscordNotificator.java:128-135 | the username in force is the payload's original one or some processed recipient's username |
| `Notifications.DiscordNotificator.constructor` | tc-discord-webhooks-server/src/main/java/com/github/playerforcehd/tcdiscordwebhooks/notificator/DiscordNotificator.java:99-103 | a new notificator owns a fresh webhook processor that has sent nothing |
| `Notifications.DiscordNotificator.ProcessNotify` | tc-discord-webhooks-server/src/main/java/com/github/playerforcehd/tcdiscordwebhooks/notificator/DiscordNotificator.java:125-142 | the processor's trace grows by exactly the specified posts; the payload keeps its embeds and ends with the last override seen before the first recipient without a URL; the log gains at most one send failure per send made, then one URL-not-set entry for that recipient exactly when there is one |
| `Notifications.DiscordNotificator.Notify` | tc-discord-webhooks-server/src/main/java/com/github/playerforcehd/tcdiscordwebhooks/notificator/DiscordNotificator.java:193-583 | an event sends and logs nothing when it produces no message; otherwise it delivers its one-embed message to the recipients as the delivery loop does, starting without a username override, and the log gains at most one send failure per send made, then one URL-not-set entry exactly when some recipient has no URL |

## Left out

- `DiscordWebHookPayload` is not part of this model: a new payload is taken to have no username (Java's null), and its fields other than username and embeds are not modelled. Notifications.DiscordNotificator.Notify therefore states its posts starting from an unset username.
- The HTTP POST and JSON serialisation of `DiscordWebHookProcessor`: that class is not part of this model. A send is a trace entry with an arbitrary success flag.
- The RGB values of `DiscordEmbedColor`: that enum is not part of this model. Colours are the four names.
- The inner structure of embed footers and thumbnails: the notificator never sets them, so they are optional strings that are always absent.
- `initializeNotificator` and the registration of the URL and username properties (lines 110-115): host UI plumbing.
- Log message texts and the logged exception: the log is a ghost list of entries saying which kind of error was logged.
- Notifications.DiscordNotificator.ProcessNotify: bounds the send-failure entries by the number of sends made but does not say which sends failed, because send outcomes are arbitrary in this model.
- Notifications.DiscordNotificator.Notify: states the log as ProcessNotify does, with send failures bounded by the sends made but not identified, because send outcomes are arbitrary in this model.
- The TeamCity object model: builds, projects, branches, mutes and users are plain datatypes holding only the fields the notificator reads. The event arguments it never reads (test collections, responsibility entries, the VCS root, the throwable, the unmuting user) are dropped.
- The order of the Java `Set<SUser>` of recipients: it is a sequence in the order the set's iterator yields.
- The server's project manager: `Notify` takes the current project list as a parameter.
- Rendering a build's numeric id as text: the id is an already rendered string.
- Concurrent calls by the host: each call is modelled as a sequential run.
- `getNotificatorType` and `getDisplayName`: they are the constants `NotificatorType` and `NotificatorDisplayName`.
- The value of TeamCity's `Branch.DEFAULT_BRANCH_NAME`: it comes from the TeamCity API. The model uses `"<default>"`, and only equality with it matters.
