/** The read-only views over the known posts and accounts: the Dashboard
    counters and the StatusBadge that renders a post's status. */
module Dashboard {
  import opened Domain

  /** The statuses StatusBadge knows how to render. */
  datatype Status = Draft | Published | Failed | Scheduled | Partial

  /** The key of each status in StatusBadge's table. */
  function StatusName(s: Status): string {
    match s
    case Draft => "draft"
    case Published => "published"
    case Failed => "failed"
    case Scheduled => "scheduled"
    case Partial => "partial"
  }

  /** `statusConfig[status] || statusConfig.draft`: the badge a backend status
      string is shown with. A known name gets its own badge; anything else
      falls back to the draft badge. */
  function BadgeStatus(status: string): (r: Status)
    ensures StatusName(r) == status || r == Draft
    ensures (exists s :: StatusName(s) == status) ==> StatusName(r) == status
  {
    if status == "published" then Published
    else if status == "failed" then Failed
    else if status == "scheduled" then Scheduled
    else if status == "partial" then Partial
    else Draft
  }

  /** Every status is rendered with its own badge. */
  lemma BadgeOfName(s: Status)
    ensures BadgeStatus(StatusName(s)) == s
  {
  }

  /** `posts.filter(p => p.status === status).length` */
  function CountWithStatus(posts: seq<Post>, status: string): (n: nat)
    ensures n <= |posts|
    ensures n == 0 <==> forall i :: 0 <= i < |posts| ==> posts[i].status != status
    ensures n == |posts| <==> forall i :: 0 <= i < |posts| ==> posts[i].status == status
  {
    if posts == [] then 0
    else (if posts[0].status == status then 1 else 0) + CountWithStatus(posts[1..], status)
  }

  /** Posts of two different statuses never outnumber the posts. */
  lemma {:induction false} CountTwoStatuses(posts: seq<Post>, a: string, b: string)
    requires a != b
    ensures CountWithStatus(posts, a) + CountWithStatus(posts, b) <= |posts|
  {
    if posts != [] {
      CountTwoStatuses(posts[1..], a, b);
    }
  }

  /** Adding a post at the head moves exactly the counter of its status, by one. */
  lemma CountAfterPrepend(post: Post, posts: seq<Post>, status: string)
    ensures CountWithStatus([post] + posts, status)
         == CountWithStatus(posts, status) + (if post.status == status then 1 else 0)
  {
    assert ([post] + posts)[1..] == posts;
  }

  /** The four figures the Dashboard shows. */
  datatype Stats = Stats(connectedPlatforms: nat, totalPosts: nat, publishedPosts: nat, scheduledPosts: nat)

  function DashboardStats(posts: seq<Post>, socialAccounts: seq<Account>): (r: Stats)
    ensures r.connectedPlatforms == |socialAccounts|
    ensures r.totalPosts == |posts|
    ensures r.publishedPosts + r.scheduledPosts <= r.totalPosts
    ensures r.publishedPosts == 0 <==> forall i :: 0 <= i < |posts| ==> posts[i].status != "published"
    ensures r.scheduledPosts == 0 <==> forall i :: 0 <= i < |posts| ==> posts[i].status != "scheduled"
  {
    CountTwoStatuses(posts, "published", "scheduled");
    Stats(|socialAccounts|, |posts|,
          CountWithStatus(posts, "published"), CountWithStatus(posts, "scheduled"))
  }
}
