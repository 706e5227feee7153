/** The values the workflow handlers of src/App.jsx pass around: posts as the
    backend returns them, the compose form, per-platform publish results and
    linked social accounts. Identifiers are opaque to the client; they are
    modelled as naturals. */
module Domain {

  /** A platform identifier such as "facebook"; the client never interprets it. */
  type Platform = string
  type PostId = nat
  type AccountId = nat

  /** A post as the backend returns it. `status` is whatever text the backend
      sent: the client never computes it. */
  datatype Post = Post(
    id: PostId,
    title: string,
    content: string,
    platforms: seq<Platform>,
    scheduledAt: string,
    status: string)

  /** The compose form of the CreatePost component; it is also the body of the
      create request. */
  datatype FormData = FormData(
    title: string,
    content: string,
    platforms: seq<Platform>,
    scheduledAt: string)

  /** The form as the component starts and as it is reset after a success. */
  const EmptyForm: FormData := FormData("", "", [], "")

  /** The backend's report of one platform's publish attempt. */
  datatype PlatformResult = PlatformResult(platform: Platform, status: string, error: string)

  /** The result status the client counts as a success. */
  const SuccessStatus: string := "success"

  /** A social account linked to the user. */
  datatype Account = Account(id: AccountId, platform: Platform, accountName: string)
}
