/** The CreatePost component: the platform toggle, "save as draft"
    (handleSubmit) and "publish now" (handlePublish). Each handler is a method
    of a class holding the component's state, proved equal to a function of
    the state before the click and of the backend's responses; the promises
    of the source are stated on those functions. */
module Publishing {
  import opened Domain
  import opened Gateway
  import opened Selection
  import opened Shell

  // ---------------------------------------------------------------------------
  // String.prototype.trim

  /** The characters `trim` strips: ECMAScript white space and line terminators. */
  predicate IsSpace(c: char) {
    || c == '\t' || c == '\n' || c == '\U{000B}' || c == '\U{000C}' || c == '\r'
    || c == ' ' || c == '\U{00A0}' || c == '\U{1680}'
    || ('\U{2000}' <= c <= '\U{200A}')
    || c == '\U{2028}' || c == '\U{2029}' || c == '\U{202F}' || c == '\U{205F}'
    || c == '\U{3000}' || c == '\U{FEFF}'
  }

  /** Nothing but white space. */
  predicate IsBlank(s: string) {
    forall i :: 0 <= i < |s| ==> IsSpace(s[i])
  }

  /** `s` without its leading white space. */
  function TrimStart(s: string): string {
    if s != [] && IsSpace(s[0]) then TrimStart(s[1..]) else s
  }

  /** `s` without its trailing white space. */
  function TrimEnd(s: string): string {
    if s != [] && IsSpace(s[|s| - 1]) then TrimEnd(s[..|s| - 1]) else s
  }

  /** TrimStart drops a prefix of white space and stops at the first other
      character. */
  lemma {:induction false} TrimStartDropsSpace(s: string)
    ensures |TrimStart(s)| <= |s| && TrimStart(s) == s[|s| - |TrimStart(s)|..]
    ensures TrimStart(s) == [] || !IsSpace(TrimStart(s)[0])
    ensures forall i :: 0 <= i < |s| - |TrimStart(s)| ==> IsSpace(s[i])
  {
    if s != [] && IsSpace(s[0]) {
      var rest := s[1..];
      TrimStartDropsSpace(rest);
      var k := |rest| - |TrimStart(rest)|;
      assert TrimStart(s) == TrimStart(rest);
      assert s[k + 1..] == rest[k..];
      forall i | 0 <= i < k + 1 ensures IsSpace(s[i]) {
        if i > 0 { assert s[i] == rest[i - 1]; }
      }
    }
  }

  /** TrimEnd drops a suffix of white space and stops at the last other
      character. */
  lemma {:induction false} TrimEndDropsSpace(s: string)
    ensures |TrimEnd(s)| <= |s| && TrimEnd(s) == s[..|TrimEnd(s)|]
    ensures TrimEnd(s) == [] || !IsSpace(TrimEnd(s)[|TrimEnd(s)| - 1])
    ensures forall i :: |TrimEnd(s)| <= i < |s| ==> IsSpace(s[i])
  {
    if s != [] && IsSpace(s[|s| - 1]) {
      var rest := s[..|s| - 1];
      TrimEndDropsSpace(rest);
      var n := |TrimEnd(rest)|;
      assert TrimEnd(s) == TrimEnd(rest);
      assert s[..n] == rest[..n];
      forall i | n <= i < |s| ensures IsSpace(s[i]) {
        if i < |s| - 1 { assert s[i] == rest[i]; }
      }
    }
  }

  /** `s.trim()`: empty exactly when `s` is blank; otherwise it starts and
      ends with a character that is not white space. */
  function Trim(s: string): (r: string)
    ensures r == [] <==> IsBlank(s)
    ensures r != [] ==> !IsSpace(r[0]) && !IsSpace(r[|r| - 1])
    ensures exists i, j :: 0 <= i <= j <= |s| && r == s[i..j] && IsBlank(s[..i]) && IsBlank(s[j..])
  {
    TrimStartDropsSpace(s);
    var t := TrimStart(s);
    TrimEndDropsSpace(t);
    var i := |s| - |t|;
    var j := i + |TrimEnd(t)|;
    assert TrimEnd(t) == s[i..j];
    assert IsBlank(s[..i]) by {
      forall k | 0 <= k < i ensures IsSpace(s[..i][k]) { assert s[..i][k] == s[k]; }
    }
    assert IsBlank(s[j..]) by {
      forall k | 0 <= k < |s| - j ensures IsSpace(s[j..][k]) { assert s[j..][k] == t[|TrimEnd(t)| + k]; }
    }
    TrimEnd(t)
  }

  // ---------------------------------------------------------------------------
  // What a handler leaves behind

  const ContentRequired: string := "Il contenuto del post \U{00E8} obbligatorio"
  const NoPlatformSelected: string := "Seleziona almeno una piattaforma"
  const CreateFailed: string := "Errore durante la creazione del post"
  const PublishFailed: string := "Errore durante la pubblicazione del post"

  /** The component's success message: none, "post created", or "published on
      `succeeded`/`total` platforms". */
  datatype Notice = NoNotice | PostCreated | PublishedOn(succeeded: nat, total: nat)

  /** The component's state: the form, the loading flag, the error text ("" for
      none) and the success message. */
  datatype View = View(form: FormData, loading: bool, error: string, notice: Notice)

  /** The effect of one handler run: the new state, the calls it made, in
      order, and the post it handed up to the App (if any). */
  datatype Outcome = Outcome(view: View, calls: seq<Call>, handedUp: Option<Post>)

  /** `results.filter(r => r.status === 'success').length` */
  function SuccessCount(results: seq<PlatformResult>): (n: nat)
    ensures n <= |results|
    ensures n == |results| <==> forall i :: 0 <= i < |results| ==> results[i].status == SuccessStatus
    ensures n == 0 <==> forall i :: 0 <= i < |results| ==> results[i].status != SuccessStatus
  {
    if results == [] then 0
    else (if results[0].status == SuccessStatus then 1 else 0) + SuccessCount(results[1..])
  }

  /** The checks "publish now" makes before it sends anything. */
  predicate ReadyToPublish(form: FormData) {
    !IsBlank(form.content) && form.platforms != []
  }

  /** The network part of handlePublish, once the form passed validation:
      create the post, then publish the created post. */
  function CreateThenPublish(form: FormData, create: Response<CreateData>, publish: Response<PublishData>): (o: Outcome)
    // Create is sent first, with the form as its body; the handler always ends not loading.
    ensures !o.view.loading
    // Publish is sent only after a successful create, and for the id create returned.
    ensures !create.Ok? ==> o.calls == [CreatePostRequest(form)]
    ensures create.Ok? ==> o.calls == [CreatePostRequest(form), PublishPost(create.data.post.id)]
    // A post is handed up exactly when both requests succeed: the backend's published post.
    ensures o.handedUp.Some? <==> create.Ok? && publish.Ok?
    ensures o.handedUp.Some? ==>
              && o.handedUp.value == publish.data.post
              && o.view == View(EmptyForm, false, "",
                                PublishedOn(SuccessCount(publish.data.results), |publish.data.results|))
    // On every failure the form is kept, no success is shown and the error names the failing step.
    ensures o.handedUp.None? ==> o.view.form == form && o.view.notice == NoNotice
    ensures create.Rejected? ==> o.view.error == ErrorText(create.error, CreateFailed)
    ensures create.Ok? && publish.Rejected? ==> o.view.error == ErrorText(publish.error, PublishFailed)
    ensures create.Unreachable? || (create.Ok? && publish.Unreachable?) ==> o.view.error == ConnectionError
  {
    var sent := [CreatePostRequest(form)];
    match create
    case Unreachable => Outcome(View(form, false, ConnectionError, NoNotice), sent, None)
    case Rejected(e) => Outcome(View(form, false, ErrorText(e, CreateFailed), NoNotice), sent, None)
    case Ok(created) =>
      var sent := sent + [PublishPost(created.post.id)];
      match publish
      case Unreachable => Outcome(View(form, false, ConnectionError, NoNotice), sent, None)
      case Rejected(e) => Outcome(View(form, false, ErrorText(e, PublishFailed), NoNotice), sent, None)
      case Ok(published) =>
        Outcome(View(EmptyForm, false, "",
                     PublishedOn(SuccessCount(published.results), |published.results|)),
                sent, Some(published.post))
  }

  /** handlePublish: validate without sending anything, then create and
      publish. Content is checked before the platform selection. */
  function Publish(v: View, create: Response<CreateData>, publish: Response<PublishData>): (o: Outcome)
    ensures IsBlank(v.form.content) ==> o == Outcome(v.(error := ContentRequired), [], None)
    ensures !IsBlank(v.form.content) && v.form.platforms == [] ==>
              o == Outcome(v.(error := NoPlatformSelected), [], None)
    ensures o.calls == [] <==> !ReadyToPublish(v.form)
    ensures ReadyToPublish(v.form) ==> o == CreateThenPublish(v.form, create, publish)
  {
    if IsBlank(v.form.content) then Outcome(v.(error := ContentRequired), [], None)
    else if |v.form.platforms| == 0 then Outcome(v.(error := NoPlatformSelected), [], None)
    else CreateThenPublish(v.form, create, publish)
  }

  /** handleSubmit ("save as draft"): exactly one create request, whatever the
      form holds; the created post is handed up on success. */
  function SaveDraft(v: View, create: Response<CreateData>): (o: Outcome)
    ensures o.calls == [CreatePostRequest(v.form)]
    ensures !o.view.loading
    ensures o.handedUp.Some? <==> create.Ok?
    ensures create.Ok? ==> o.handedUp.value == create.data.post
                           && o.view == View(EmptyForm, false, "", PostCreated)
    ensures create.Rejected? ==> o.view == View(v.form, false, ErrorText(create.error, CreateFailed), NoNotice)
    ensures create.Unreachable? ==> o.view == View(v.form, false, ConnectionError, NoNotice)
  {
    match create
    case Ok(created) => Outcome(View(EmptyForm, false, "", PostCreated), [CreatePostRequest(v.form)], Some(created.post))
    case Rejected(e) => Outcome(View(v.form, false, ErrorText(e, CreateFailed), NoNotice), [CreatePostRequest(v.form)], None)
    case Unreachable => Outcome(View(v.form, false, ConnectionError, NoNotice), [CreatePostRequest(v.form)], None)
  }

  /** The App's post list after a handler ran: the handed-up post at the head,
      or the list unchanged. */
  function AfterHandUp(posts: seq<Post>, handedUp: Option<Post>): (r: seq<Post>)
    ensures handedUp.None? ==> r == posts
    ensures handedUp.Some? ==> |r| == |posts| + 1 && r[0] == handedUp.value && r[1..] == posts
  {
    match handedUp
    case None => posts
    case Some(p) => [p] + posts
  }

  /** A publish that fails at any step leaves the App's post list as it was. */
  lemma FailedPublishKeepsPosts(posts: seq<Post>, v: View, create: Response<CreateData>, publish: Response<PublishData>)
    requires !(create.Ok? && publish.Ok?)
    ensures AfterHandUp(posts, Publish(v, create, publish).handedUp) == posts
  {
  }

  // ---------------------------------------------------------------------------
  // The component

  class CreatePost {
    var form: FormData
    var loading: bool
    var error: string
    var notice: Notice
    /** The requests this component has sent, oldest first. */
    var calls: seq<Call>

    constructor ()
      ensures form == EmptyForm && !loading && error == "" && notice == NoNotice && calls == []
    {
      form := EmptyForm;
      loading := false;
      error := "";
      notice := NoNotice;
      calls := [];
    }

    function CurrentView(): View
      reads this
    {
      View(form, loading, error, notice)
    }

    /** handlePlatformToggle: only the selection changes. */
    method HandlePlatformToggle(platform: Platform)
      modifies this`form
      ensures form == old(form).(platforms := Toggle(old(form).platforms, platform))
    {
      form := form.(platforms := Toggle(form.platforms, platform));
    }

    /** handleSubmit, with the backend's answer to the create request. */
    method HandleSubmit(app: App, create: Response<CreateData>)
      modifies this, app`posts
      ensures CurrentView() == SaveDraft(old(CurrentView()), create).view
      ensures calls == old(calls) + SaveDraft(old(CurrentView()), create).calls
      ensures app.posts == AfterHandUp(old(app.posts), SaveDraft(old(CurrentView()), create).handedUp)
    {
      loading := true;
      error := "";
      notice := NoNotice;
      calls := calls + [CreatePostRequest(form)];
      match create {
        case Ok(created) =>
          notice := PostCreated;
          form := EmptyForm;
          app.HandlePostCreated(created.post);
        case Rejected(e) =>
          error := ErrorText(e, CreateFailed);
        case Unreachable =>
          error := ConnectionError;
      }
      loading := false;
    }

    /** handlePublish, with the backend's answers to the create request and to
        the publish request (the latter is consulted only if it is sent). */
    method HandlePublish(app: App, create: Response<CreateData>, publish: Response<PublishData>)
      modifies this, app`posts
      ensures CurrentView() == Publish(old(CurrentView()), create, publish).view
      ensures calls == old(calls) + Publish(old(CurrentView()), create, publish).calls
      ensures app.posts == AfterHandUp(old(app.posts), Publish(old(CurrentView()), create, publish).handedUp)
    {
      if Trim(form.content) == [] {
        error := ContentRequired;
        return;
      }
      if |form.platforms| == 0 {
        error := NoPlatformSelected;
        return;
      }
      var body := form;
      ghost var sent := CreateThenPublish(body, create, publish);
      assert Publish(old(CurrentView()), create, publish) == sent;
      loading := true;
      error := "";
      notice := NoNotice;
      calls := calls + [CreatePostRequest(body)];
      if !create.Ok? {
        error := if create.Rejected? then ErrorText(create.error, CreateFailed) else ConnectionError;
        loading := false;
        return;
      }
      var created := create.data;
      calls := calls + [PublishPost(created.post.id)];
      match publish {
        case Ok(published) =>
          notice := PublishedOn(SuccessCount(published.results), |published.results|);
          form := EmptyForm;
          app.HandlePostCreated(published.post);
        case Rejected(e) =>
          error := ErrorText(e, PublishFailed);
        case Unreachable =>
          error := ConnectionError;
      }
      loading := false;
    }
  }
}
