/** The SocialAccounts component: linking an account through the backend's
    authorization flow with bounded polling (handleConnect), disconnecting an
    account (handleDisconnect), and recording saved credentials
    (handleCredentialsSaved). Time is a tick counter in milliseconds measured
    from the moment the authorization window is opened; the answer the
    backend gives to each poll is an input. */
module Linking {
  import opened Domain
  import opened Gateway
  import opened Accounts
  import opened Shell

  /** The poll interval and the deadline of handleConnect. */
  const PollIntervalMs: nat := 2000
  const TimeoutMs: nat := 120000
  /** The number of poll ticks that fall within the deadline: 60. */
  const MaxPolls: nat := TimeoutMs / PollIntervalMs

  const ConnectFailed: string := "Errore durante la connessione"
  const DisconnectFailed: string := "Errore durante la disconnessione"

  /** The backend's answer to the poll with index `k` (0-based). A poll the
      sequence says nothing about is taken as a request that threw. */
  function PollAnswer(answers: seq<Response<seq<Account>>>, k: nat): Response<seq<Account>> {
    if k < |answers| then answers[k] else Unreachable
  }

  /** Poll `k` came back ok with a list holding a new account on `platform`. */
  predicate Matches(answers: seq<Response<seq<Account>>>, k: nat, known: seq<Account>, platform: Platform) {
    PollAnswer(answers, k).Ok? && HasNewAccount(PollAnswer(answers, k).data, known, platform)
  }

  /** The first poll from index `k` on, within the deadline, that matches. */
  function FirstMatchFrom(answers: seq<Response<seq<Account>>>, known: seq<Account>, platform: Platform, k: nat): (r: Option<nat>)
    requires k <= MaxPolls
    ensures r.Some? ==> k <= r.value < MaxPolls && Matches(answers, r.value, known, platform)
    ensures forall j :: k <= j < (if r.Some? then r.value else MaxPolls) ==> !Matches(answers, j, known, platform)
    decreases MaxPolls - k
  {
    if k == MaxPolls then None
    else if Matches(answers, k, known, platform) then Some(k)
    else FirstMatchFrom(answers, known, platform, k + 1)
  }

  /** A match at `k` with none before it is the first match. */
  lemma FirstMatchAt(answers: seq<Response<seq<Account>>>, known: seq<Account>, platform: Platform, k: nat)
    requires k < MaxPolls && Matches(answers, k, known, platform)
    requires forall j :: 0 <= j < k ==> !Matches(answers, j, known, platform)
    ensures FirstMatchFrom(answers, known, platform, 0) == Some(k)
  {
  }

  /** The interval callback of handleConnect, run tick by tick: every
      PollIntervalMs a poll is sent; an answer that is not ok, or a request
      that throws, is ignored; the first answer holding a new account on
      `platform` stops the polling. The deadline stops it in any case.
      Returns how many polls were sent and the list that matched, if any. */
  method PollUntilLinked(platform: Platform, known: seq<Account>, answers: seq<Response<seq<Account>>>)
    returns (polls: nat, linked: Option<seq<Account>>)
    ensures polls <= MaxPolls && polls * PollIntervalMs <= TimeoutMs
    ensures linked.Some? <==> FirstMatchFrom(answers, known, platform, 0).Some?
    ensures linked.Some? ==>
              && polls == FirstMatchFrom(answers, known, platform, 0).value + 1
              && PollAnswer(answers, polls - 1) == Ok(linked.value)
              && HasNewAccount(linked.value, known, platform)
    ensures linked.None? ==> polls == MaxPolls
  {
    var now := 0;
    polls := 0;
    linked := None;
    while linked.None? && now + PollIntervalMs <= TimeoutMs
      invariant now == polls * PollIntervalMs && polls <= MaxPolls
      invariant linked.None? ==> forall j :: 0 <= j < polls ==> !Matches(answers, j, known, platform)
      invariant linked.Some? ==>
                  && 0 < polls
                  && PollAnswer(answers, polls - 1) == Ok(linked.value)
                  && Matches(answers, polls - 1, known, platform)
                  && forall j :: 0 <= j < polls - 1 ==> !Matches(answers, j, known, platform)
      decreases TimeoutMs - now, if linked.None? then 1 else 0
    {
      now := now + PollIntervalMs;
      var answer := PollAnswer(answers, polls);
      polls := polls + 1;
      if answer.Ok? && HasNewAccount(answer.data, known, platform) {
        linked := Some(answer.data);
      }
    }
    if linked.Some? {
      FirstMatchAt(answers, known, platform, polls - 1);
    }
  }

  /** How an attempt to link an account ended. */
  datatype LinkState =
    | Failed(error: string)   // the connect request failed; no polling started
    | Linked(polls: nat)      // the poll with this number (1-based) found the new account
    | TimedOut                // the deadline passed without a match
  {
    /** The error text the component shows once the attempt ended. */
    function ErrorShown(): string {
      if Failed? then error else ""
    }
  }

  /** The effect of handleConnect: how it ended, the calls it made, in order,
      and the App's account list afterwards. */
  datatype Link = Link(state: LinkState, calls: seq<Call>, accounts: seq<Account>)

  /** `n` requests for the account list. */
  function AccountPolls(n: nat): (r: seq<Call>)
    ensures |r| == n && forall i :: 0 <= i < n ==> r[i] == ListAccounts
  {
    seq(n, _ => ListAccounts)
  }

  /** handleConnect from the accounts known when it starts, the answer to the
      connect request and the answers to the polls. */
  function Connect(known: seq<Account>, platform: Platform, connect: Response<ConnectData>,
                   answers: seq<Response<seq<Account>>>): (r: Link)
    // A failed connect request shows its error and starts no polling.
    ensures !connect.Ok? <==> r.state.Failed?
    ensures connect.Rejected? ==> r == Link(Failed(ErrorText(connect.error, ConnectFailed)), [BeginConnect(platform)], known)
    ensures connect.Unreachable? ==> r == Link(Failed(ConnectionError), [BeginConnect(platform)], known)
    // Otherwise the authorization page is opened and then only polls follow, at most MaxPolls.
    ensures connect.Ok? ==>
              && 2 <= |r.calls| <= 2 + MaxPolls
              && r.calls[..2] == [BeginConnect(platform), OpenWindow(connect.data.authUrl)]
              && r.calls[2..] == AccountPolls(|r.calls| - 2)
    // Linked exactly when some poll within the deadline matches; the first match wins.
    ensures r.state.Linked? <==> connect.Ok? && FirstMatchFrom(answers, known, platform, 0).Some?
    ensures r.state.Linked? ==>
              && 1 <= r.state.polls <= MaxPolls
              && |r.calls| == 2 + r.state.polls
              && PollAnswer(answers, r.state.polls - 1) == Ok(r.accounts)
              && HasNewAccount(r.accounts, known, platform)
              && forall j :: 0 <= j < r.state.polls - 1 ==> !Matches(answers, j, known, platform)
    // Timing out polls exactly MaxPolls times and leaves the accounts alone.
    ensures r.state.TimedOut? ==> |r.calls| == 2 + MaxPolls && r.accounts == known
  {
    match connect
    case Unreachable => Link(Failed(ConnectionError), [BeginConnect(platform)], known)
    case Rejected(e) => Link(Failed(ErrorText(e, ConnectFailed)), [BeginConnect(platform)], known)
    case Ok(data) =>
      var started := [BeginConnect(platform), OpenWindow(data.authUrl)];
      match FirstMatchFrom(answers, known, platform, 0)
      case Some(k) =>
        Link(Linked(k + 1), started + AccountPolls(k + 1), PollAnswer(answers, k).data)
      case None =>
        Link(TimedOut, started + AccountPolls(MaxPolls), known)
  }

  /** Once the connect request succeeded, the attempt is what the poll loop
      makes of it: linked after the loop's polls with the list that matched,
      or timed out after all of them with the accounts unchanged. */
  lemma ConnectAfterPolling(known: seq<Account>, platform: Platform, data: ConnectData,
                            answers: seq<Response<seq<Account>>>, polls: nat, linked: Option<seq<Account>>)
    requires linked.Some? <==> FirstMatchFrom(answers, known, platform, 0).Some?
    requires linked.Some? ==> polls == FirstMatchFrom(answers, known, platform, 0).value + 1
                              && PollAnswer(answers, polls - 1) == Ok(linked.value)
    requires linked.None? ==> polls == MaxPolls
    ensures Connect(known, platform, Ok(data), answers)
         == Link(if linked.Some? then Linked(polls) else TimedOut,
                 [BeginConnect(platform), OpenWindow(data.authUrl)] + AccountPolls(polls),
                 if linked.Some? then linked.value else known)
  {
  }

  /** An attempt links exactly when the connect request succeeds and some
      poll within the deadline comes back with a new account on the platform. */
  lemma LinkedIffSomePollMatches(known: seq<Account>, platform: Platform, connect: Response<ConnectData>,
                                 answers: seq<Response<seq<Account>>>)
    ensures Connect(known, platform, connect, answers).state.Linked?
        <==> connect.Ok? && exists k :: 0 <= k < MaxPolls && Matches(answers, k, known, platform)
  {
  }

  /** If no poll ever shows an account on the platform that the attempt did
      not already know (every answer fails, is rejected, or lists only known
      accounts and accounts on other platforms, in any order), the attempt
      sends all MaxPolls polls, times out, and leaves the accounts alone. */
  lemma TimesOutWithoutNewAccount(known: seq<Account>, platform: Platform, url: string,
                                 answers: seq<Response<seq<Account>>>)
    requires forall k :: 0 <= k < |answers| && answers[k].Ok? ==> !HasNewAccount(answers[k].data, known, platform)
    ensures Connect(known, platform, Ok(ConnectData(url)), answers)
         == Link(TimedOut, [BeginConnect(platform), OpenWindow(url)] + AccountPolls(MaxPolls), known)
  {
    var first := FirstMatchFrom(answers, known, platform, 0);
    if first.Some? {
      assert Matches(answers, first.value, known, platform);
    }
  }

  class SocialAccounts {
    var loading: bool
    var error: string
    /** Which platforms have application credentials configured. */
    var credentialsStatus: map<Platform, bool>
    /** The requests and host calls this component has made, oldest first. */
    var calls: seq<Call>

    constructor (status: map<Platform, bool>)
      ensures !loading && error == "" && credentialsStatus == status && calls == []
    {
      loading := false;
      error := "";
      credentialsStatus := status;
      calls := [];
    }

    /** handleCredentialsSaved: only `platform`'s entry changes, to true. */
    method HandleCredentialsSaved(platform: Platform)
      modifies this`credentialsStatus
      ensures credentialsStatus == MarkConfigured(old(credentialsStatus), platform)
    {
      credentialsStatus := credentialsStatus[platform := true];
    }

    /** handleConnect. The accounts known when the attempt starts are the ones
        the poll compares against; on a match the App's list is replaced by
        the polled list. The attempt ends not loading however it ends. */
    method HandleConnect(app: App, platform: Platform, connect: Response<ConnectData>,
                         answers: seq<Response<seq<Account>>>)
      modifies this, app`socialAccounts
      ensures calls == old(calls) + Connect(old(app.socialAccounts), platform, connect, answers).calls
      ensures app.socialAccounts == Connect(old(app.socialAccounts), platform, connect, answers).accounts
      ensures error == Connect(old(app.socialAccounts), platform, connect, answers).state.ErrorShown()
      ensures !loading && credentialsStatus == old(credentialsStatus)
    {
      loading := true;
      error := "";
      calls := calls + [BeginConnect(platform)];
      match connect {
        case Unreachable =>
          error := ConnectionError;
        case Rejected(e) =>
          error := ErrorText(e, ConnectFailed);
        case Ok(data) =>
          calls := calls + [OpenWindow(data.authUrl)];
          var known := app.socialAccounts;
          var polls, linked := PollUntilLinked(platform, known, answers);
          ConnectAfterPolling(known, platform, data, answers, polls, linked);
          calls := calls + AccountPolls(polls);
          if linked.Some? {
            app.HandleAccountsUpdate(linked.value);
          }
      }
      loading := false;
    }

    /** handleDisconnect, with the backend's answer to the delete request. On
        success every account with that id leaves the App's list; on failure
        the list is untouched and the error is shown. */
    method HandleDisconnect(app: App, accountId: AccountId, response: Response<()>)
      modifies this`error, this`calls, app`socialAccounts
      ensures calls == old(calls) + [DeleteAccount(accountId)]
      ensures response.Ok? ==> app.socialAccounts == WithoutAccount(old(app.socialAccounts), accountId)
                               && error == old(error)
      ensures response.Rejected? ==> app.socialAccounts == old(app.socialAccounts)
                                     && error == ErrorText(response.error, DisconnectFailed)
      ensures response.Unreachable? ==> app.socialAccounts == old(app.socialAccounts)
                                        && error == ConnectionError
    {
      calls := calls + [DeleteAccount(accountId)];
      match response {
        case Ok(_) =>
          app.HandleAccountsUpdate(WithoutAccount(app.socialAccounts, accountId));
        case Rejected(e) =>
          error := ErrorText(e, DisconnectFailed);
        case Unreachable =>
          error := ConnectionError;
      }
    }
  }
}
