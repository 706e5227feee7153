# Social media publisher client — workflow core in Dafny

This project models the workflow logic of the single-page client in
`src/App.jsx`: a user composes a post, picks target platforms and either
saves it as a draft or publishes it now through the backend; a user links a
platform account by opening the backend's authorization page and polling the
account list until a new account on that platform appears (or two minutes
pass); a user disconnects accounts and records that a platform's API
credentials are configured. The Dashboard counters and the status badge are
modelled as the read-only views they are.

Every `fetch` and host call is replaced by the gateway boundary in
`gateway.dfy`: the backend's answer to each request is an input of the
handler (`Ok(data)`, `Rejected(error)` for a response that is not ok,
`Unreachable` for a request or body parse that throws), and every request a
handler sends is appended to a `calls` log, so "nothing is sent", "create
comes before publish" and "at most 60 polls" are statements about that log.
Timers become a millisecond tick counter in the poll loop.

Layout, one module per file:

- `domain.dfy` (`Domain`): posts, the compose form, platform results, accounts.
- `gateway.dfy` (`Gateway`): responses, the call log, the `data.error || fallback` rule.
- `selection.dfy` (`Selection`): the platform toggle.
- `dashboard.dfy` (`Dashboard`): status badge fallback, per-status counters.
- `accounts.dfy` (`Accounts`): new-account test, account removal, credential status, credential field table.
- `app.dfy` (`Shell`): the App component's post and account lists (`class App`).
- `create_post.dfy` (`Publishing`): `trim`, the draft and publish handlers (`class CreatePost`).
- `social_accounts.dfy` (`Linking`): bounded polling, connect and disconnect handlers (`class SocialAccounts`).

The handlers that change component state are methods of classes whose fields
are the component's state (`form`, `loading`, `error`, the success message,
the call log); each is proved to leave exactly the state a specification
function (`SaveDraft`, `Publish`, `Connect`) computes from the old state and
the backend's answers, and the source's promises are proved about those
functions. Lists the App component owns (`posts`, `socialAccounts`) live in
`Shell.App` and are changed only through its two callbacks, as in the source.

Notes on what the code does, which the model follows:

- Saving a draft performs no content check in the handler (the only check is
  the browser's `required` attribute on the text area); `SaveDraft` always
  sends its one create request.
- The published/partial/failed classification is never computed by the
  client: the post handed up after publishing is the backend's post, with the
  backend's `status` string, and the badge shows a status outside its five
  names as a draft (see `Dashboard.BadgeStatus` under "Left out").
- The poll compares against the accounts known when the connect started and,
  on a match, replaces the App's account list with the polled list.
- The success message reports `succeeded/total` from the backend's results;
  the handlers do not classify.
- The validation failures of "publish now" leave the previous success
  message in place (they return before it is cleared).

Timing choice: poll number `k` (1-based) fires at `k * 2000` ms and the
deadline is 120000 ms. The poll due exactly at the deadline is taken to fire,
so an attempt that times out has sent exactly `MaxPolls = 60` polls.

## Model

| member | source | states |
|---|---|---|
| `Selection.RemoveAll` | src/App.jsx:338-340 | the result holds no occurrence of the platform and every other platform with its original multiplicity |
| `Selection.Toggle` | src/App.jsx:335-342 | a selected platform is removed everywhere, an unselected one is appended at the end; it is in the result iff it was not in the input; other platforms keep their multiplicities |
| `Selection.RemoveAllAppend` | src/App.jsx:339 | removal distributes over concatenation, so the remaining platforms keep their order |
| `Selection.RemoveAllAbsent` | src/App.jsx:339 | removing an absent platform returns the list unchanged |
| `Selection.ToggleTwiceRestores` | src/App.jsx:335-342 | toggling an absent platform twice gives back the original list exactly |
| `Selection.RemoveAllNoDuplicates` | src/App.jsx:339 | removal keeps a duplicate-free selection duplicate-free |
| `Selection.ToggleNoDuplicates` | src/App.jsx:335-342 | toggling keeps a duplicate-free selection duplicate-free |
| `Publishing.CreatePost.HandlePlatformToggle` | src/App.jsx:335-342 | only the form's platform list changes, to its toggle |
| `Gateway.ErrorText` | src/App.jsx:372 | the backend's message when it sent a non-empty one, the handler's fallback otherwise |
| `Publishing.TrimStartDropsSpace` | src/App.jsx:382 | removing leading white space drops a prefix made only of white space and stops at the first other character |
| `Publishing.TrimEndDropsSpace` | src/App.jsx:382 | removing trailing white space drops a suffix made only of white space and stops at the last other character |
| `Publishing.Trim` | src/App.jsx:382 | `trim()` is the content with a white-space prefix and a white-space suffix cut off; it is empty exactly when the content is all ECMAScript white space, and otherwise starts and ends with a non-space |
| `Publishing.SuccessCount` | src/App.jsx:426 | the number of `success` results is at most the number of results, equals it iff all succeeded, is 0 iff none did |
| `Publishing.CreateThenPublish` | src/App.jsx:393-441 | create is sent first with the form as body; publish is sent only after an ok create and for the id create returned; a post is handed up iff both are ok, and it is the backend's post with the form reset and the succeeded/total notice; every failure keeps the form, shows no success and carries the failing step's error; the handler ends not loading |
| `Publishing.Publish` | src/App.jsx:381-442 | blank content sends nothing and sets the content error (checked first); an empty selection sends nothing and sets the platform error; nothing is sent iff validation fails; otherwise it is create-then-publish |
| `Publishing.SaveDraft` | src/App.jsx:344-379 | exactly one create request whatever the form holds; the post is handed up iff create is ok, then the form is reset; a rejection shows the backend's or the fallback error, a throw the connection error; ends not loading |
| `Publishing.AfterHandUp` | src/App.jsx:1124-1126 | with a post handed up the list grows by one with that post at the head and the old list after it; otherwise it is unchanged |
| `Publishing.FailedPublishKeepsPosts` | src/App.jsx:398-442 | when create or publish is not ok the App's post list is unchanged |
| `Publishing.CreatePost.HandleSubmit` | src/App.jsx:344-379 | the component's new state, the calls appended and the App's post list are those `SaveDraft` gives |
| `Publishing.CreatePost.HandlePublish` | src/App.jsx:381-442 | the component's new state, the calls appended and the App's post list are those `Publish` gives |
| `Shell.App.HandlePostCreated` | src/App.jsx:1124-1126 | the new post is prepended, never deduplicated; the earlier posts follow in their order |
| `Shell.App.HandleAccountsUpdate` | src/App.jsx:1128-1130 | the account list is replaced by the given one |
| `Dashboard.BadgeStatus` | src/App.jsx:293-302 | a status named in the badge table gets its own badge, any other string the draft badge |
| `Dashboard.BadgeOfName` | src/App.jsx:294-302 | every table status is rendered with its own badge |
| `Dashboard.CountWithStatus` | src/App.jsx:203-204 | the count is at most the number of posts, 0 iff no post has the status, all iff every post has it |
| `Dashboard.CountTwoStatuses` | src/App.jsx:201-204 | posts of two different statuses never outnumber all posts |
| `Dashboard.CountAfterPrepend` | src/App.jsx:203-204 | prepending a post raises exactly its own status's counter, by one |
| `Dashboard.DashboardStats` | src/App.jsx:200-204 | connected = number of accounts, total = number of posts, published + scheduled <= total, each counter 0 iff no post has that status |
| `Accounts.IsKnown` | src/App.jsx:840 | true iff some account has the id |
| `Accounts.HasNewAccount` | src/App.jsx:838-841 | true iff some fetched account is on the platform and its id is not among the known accounts |
| `Accounts.NothingNewInKnown` | src/App.jsx:838-841 | a list never holds a new account relative to itself |
| `Accounts.WithoutAccount` | src/App.jsx:878 | no account with the id remains; every other account keeps its multiplicity |
| `Accounts.WithoutAccountAppend` | src/App.jsx:878 | removal distributes over concatenation, so the remaining accounts keep their order |
| `Accounts.WithoutUnknownAccount` | src/App.jsx:878 | removing an id nobody has leaves the list unchanged |
| `Accounts.MarkConfigured` | src/App.jsx:806-811 | the platform's entry becomes true, every other entry is kept, no other key appears |
| `Accounts.PlatformFields` | src/App.jsx:576-600 | the five known platforms have fields, any other none; keys are distinct credential-state keys; id and secret come first and are required; only Twitter's access token is optional |
| `Accounts.RequiredFieldsExactly` | src/App.jsx:576-600 | the form's required check asks exactly for a non-empty identifier and secret |
| `Linking.FirstMatchFrom` | src/App.jsx:830-852 | the first poll within the deadline whose ok answer holds a new account; none before it matches, and none at all when it is absent |
| `Linking.FirstMatchAt` | src/App.jsx:843-846 | a match with no earlier match is the first match |
| `Linking.PollUntilLinked` | src/App.jsx:830-858 | at most 60 polls, all within 120000 ms; it links iff some poll within the deadline matches, stopping right after the first match with that poll's list; a failed or rejected poll is ignored; without a match it sends exactly 60 polls |
| `Linking.Connect` | src/App.jsx:813-868 | a failed connect shows its error and starts no polling; otherwise the window opens and only polls follow, at most 60; linked iff the first match within the deadline exists, after exactly that many polls, and then the App's list is the matching poll's list; a timeout sends 60 polls and keeps the accounts |
| `Linking.LinkedIffSomePollMatches` | src/App.jsx:830-858 | an attempt links iff the connect request is ok and some poll within the 60 ticks comes back ok with a new account on the platform |
| `Linking.ConnectAfterPolling` | src/App.jsx:827-858 | after an ok connect the attempt is the window opening followed by the poll loop's polls: linked with the matching list, or timed out after 60 polls with the accounts unchanged |
| `Linking.TimesOutWithoutNewAccount` | src/App.jsx:830-858 | if no ok answer holds an account on the platform with an id unknown at the start (answers may reorder, drop or add accounts on other platforms) the attempt times out after 60 polls with the accounts unchanged |
| `Linking.SocialAccounts.HandleCredentialsSaved` | src/App.jsx:806-811 | only the credential status map changes, to `MarkConfigured` of the old one |
| `Linking.SocialAccounts.HandleConnect` | src/App.jsx:813-868 | the calls appended, the App's account list and the error are those `Connect` gives; loading ends false; the credential status is untouched |
| `Linking.SocialAccounts.HandleDisconnect` | src/App.jsx:870-886 | one delete request; on success the App's list loses exactly the accounts with that id; on failure the list is unchanged and the error is set |

## Left out

- Rendering, styles, icons, dialogs and show/hide-secret toggles: presentation only.
- Login, registration, logout, session checks and the initial loading of posts, accounts and credential status: session plumbing outside the workflow core.
- The network and JSON parsing: each response is an input (`Response`), and a missing poll answer is read as a request that threw.
- The credential dialog's own submit handler, which calls `HandleCredentialsSaved` after the backend accepts the credentials, and its 2-second auto-close timer: only the callback is modelled.
- `Linking.PollUntilLinked`: each poll is taken to resolve within its own tick. The source's interval callback is asynchronous, so polls may overlap, and a poll sent before the deadline may answer after it and still replace the account list; the model does not capture either.
- `Linking.Connect`: one attempt runs alone from start to end; concurrent connect attempts on several platforms are not modelled.
- `Linking.SocialAccounts.HandleConnect`: the source never cancels an attempt (it has no cleanup when the component unmounts; the interval is cleared only on a match or by the 120 s timeout). The leftovers this causes are not modelled: an attempt that outlives the component still polls and can still replace the App's account list on a match, and the timeout of an attempt that already matched still fires at 120 s and clears `loading`, possibly in the middle of a later attempt.
- `Linking.PollUntilLinked`: the `console.error` log of a poll that throws is not modelled; such a poll is only ignored.
- `Dashboard.BadgeStatus`: the lookup in the source is a plain object lookup, so a status that names an inherited Object property (`"toString"`, `"constructor"`, `"__proto__"`) skips the draft fallback and the badge fails to render; the model treats such strings like any other unknown status and shows the draft badge.
- `Publishing.CreatePost.HandlePublish`, `Publishing.CreatePost.HandleSubmit`: the success messages are kept as a `Notice` value (the counts for publishing) instead of the Italian text the source formats.
- The published/partial/failed classification of a result set: the client never computes it; the backend supplies `status`.
