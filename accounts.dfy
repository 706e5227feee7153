/** Pure transforms of the SocialAccounts component: recognising a newly
    linked account, removing a disconnected one, recording that a platform's
    credentials are configured, and the per-platform credential form schema. */
module Accounts {
  import opened Domain

  /** `accounts.some(existing => existing.id === id)` */
  function IsKnown(accounts: seq<Account>, id: AccountId): (b: bool)
    ensures b <==> exists i :: 0 <= i < |accounts| && accounts[i].id == id
  {
    if accounts == [] then false
    else accounts[0].id == id || IsKnown(accounts[1..], id)
  }

  /** The poll's match test: some fetched account is on `platform` and has an
      id that none of the accounts known when the connect started has. */
  function HasNewAccount(fetched: seq<Account>, known: seq<Account>, platform: Platform): (b: bool)
    ensures b <==> exists i :: 0 <= i < |fetched| && fetched[i].platform == platform
                                && !IsKnown(known, fetched[i].id)
  {
    if fetched == [] then false
    else (fetched[0].platform == platform && !IsKnown(known, fetched[0].id))
         || HasNewAccount(fetched[1..], known, platform)
  }

  /** An account list never holds a new account relative to itself. */
  lemma NothingNewInKnown(accounts: seq<Account>, platform: Platform)
    ensures !HasNewAccount(accounts, accounts, platform)
  {
  }

  /** `accounts.filter(acc => acc.id !== id)`: every account with that id
      removed, every other account kept with its multiplicity. */
  function WithoutAccount(accounts: seq<Account>, id: AccountId): (r: seq<Account>)
    ensures !IsKnown(r, id)
    ensures forall a: Account :: a.id != id ==> multiset(r)[a] == multiset(accounts)[a]
    ensures |r| <= |accounts|
  {
    if accounts == [] then []
    else
      assert accounts == [accounts[0]] + accounts[1..];
      if accounts[0].id == id then WithoutAccount(accounts[1..], id)
      else [accounts[0]] + WithoutAccount(accounts[1..], id)
  }

  /** Removal keeps the order of the remaining accounts: it distributes over
      concatenation. */
  lemma {:induction false} WithoutAccountAppend(a: seq<Account>, b: seq<Account>, id: AccountId)
    ensures WithoutAccount(a + b, id) == WithoutAccount(a, id) + WithoutAccount(b, id)
  {
    if a == [] {
      assert a + b == b;
    } else {
      assert (a + b)[0] == a[0];
      assert (a + b)[1..] == a[1..] + b;
      WithoutAccountAppend(a[1..], b, id);
    }
  }

  /** Disconnecting an id nobody has leaves the list as it was. */
  lemma {:induction false} WithoutUnknownAccount(accounts: seq<Account>, id: AccountId)
    requires !IsKnown(accounts, id)
    ensures WithoutAccount(accounts, id) == accounts
  {
    if accounts != [] {
      assert accounts == [accounts[0]] + accounts[1..];
      WithoutUnknownAccount(accounts[1..], id);
    }
  }

  /** `{...prev, [platform]: true}`: the platform is now marked configured and
      every other platform keeps its entry. */
  function MarkConfigured(status: map<Platform, bool>, platform: Platform): (r: map<Platform, bool>)
    ensures r.Keys == status.Keys + {platform}
    ensures r[platform]
    ensures forall q :: q in status && q != platform ==> r[q] == status[q]
  {
    status[platform := true]
  }

  /** One input of a platform's credential form. */
  datatype Field = Field(key: string, caption: string, secret: bool, required: bool)

  /** The keys of the credential state the form's inputs write to. */
  const CredentialKeys: set<string> :=
    {"client_id", "client_secret", "access_token", "app_id", "app_secret"}

  /** `platformFields[platform] || []`: the credential fields a platform asks
      for. Facebook takes an app id and secret, the others a client id and
      secret, Twitter also an optional access token; a platform without an
      entry has no fields. Every field is bound to a key of the credential
      state, no key appears twice, and the first two fields, the identifier
      and the secret, are always required. */
  function PlatformFields(platform: Platform): (r: seq<Field>)
    ensures forall i :: 0 <= i < |r| ==> r[i].key in CredentialKeys
    ensures forall i, j :: 0 <= i < j < |r| ==> r[i].key != r[j].key
    ensures platform !in {"facebook", "instagram", "linkedin", "twitter", "tiktok"} <==> r == []
    ensures r != [] ==> 2 <= |r| && r[0].required && !r[0].secret && r[1].required && r[1].secret
    ensures forall i :: 0 <= i < |r| && !r[i].required ==> platform == "twitter" && r[i].key == "access_token"
    ensures platform == "facebook" ==> r[0].key == "app_id" && r[1].key == "app_secret"
    ensures platform != "facebook" && r != [] ==> r[0].key == "client_id" && r[1].key == "client_secret"
  {
    if platform == "facebook" then
      [Field("app_id", "App ID", false, true),
       Field("app_secret", "App Secret", true, true)]
    else if platform == "instagram" || platform == "linkedin" then
      [Field("client_id", "Client ID", false, true),
       Field("client_secret", "Client Secret", true, true)]
    else if platform == "twitter" then
      [Field("client_id", "Client ID (API Key)", false, true),
       Field("client_secret", "Client Secret (API Secret)", true, true),
       Field("access_token", "Access Token", true, false)]
    else if platform == "tiktok" then
      [Field("client_id", "Client Key", false, true),
       Field("client_secret", "Client Secret", true, true)]
    else []
  }

  /** The browser's `required` check on the credential form: every required
      field of the platform has a non-empty value. */
  predicate RequiredFieldsFilled(platform: Platform, values: map<string, string>) {
    forall f :: f in PlatformFields(platform) && f.required ==> f.key in values && values[f.key] != ""
  }

  /** A platform without a schema accepts any values; a known platform needs
      its identifier and its secret and nothing else required. */
  lemma RequiredFieldsExactly(platform: Platform, values: map<string, string>)
    requires PlatformFields(platform) != []
    ensures RequiredFieldsFilled(platform, values) <==>
      var r := PlatformFields(platform);
      r[0].key in values && values[r[0].key] != "" && r[1].key in values && values[r[1].key] != ""
  {
  }
}
