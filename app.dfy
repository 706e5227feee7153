/** The App component's lists that the handlers hand results up to: the known
    posts and the known social accounts. */
module Shell {
  import opened Domain

  class App {
    var posts: seq<Post>
    var socialAccounts: seq<Account>

    constructor ()
      ensures posts == [] && socialAccounts == []
    {
      posts := [];
      socialAccounts := [];
    }

    /** `setPosts(prev => [newPost, ...prev])`: the new post goes to the head,
        every earlier post keeps its place after it, and nothing is
        deduplicated. */
    method HandlePostCreated(newPost: Post)
      modifies this`posts
      ensures posts == [newPost] + old(posts)
      ensures |posts| == |old(posts)| + 1 && posts[1..] == old(posts)
    {
      posts := [newPost] + posts;
    }

    /** `setSocialAccounts(accounts)`: the list is replaced as a whole. */
    method HandleAccountsUpdate(accounts: seq<Account>)
      modifies this`socialAccounts
      ensures socialAccounts == accounts
    {
      socialAccounts := accounts;
    }
  }
}
