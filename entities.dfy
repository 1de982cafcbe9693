/** The records the pages exchange with the backend actor. */
module Entities {

  /** The user id the posts and investment pages assume once mounted. */
  const DemoUserId: string := "demo-user"

  /** A post as the feed shows it; `timestamp` is in milliseconds since the epoch. */
  datatype Post = Post(id: string, content: string, timestamp: int)

  /** A user profile: its posts and its token count. */
  datatype User = User(id: string, name: string, posts: seq<Post>, tokens: int)
}
