/**
 * The posts feed page: composing and submitting a post, and showing each post's age.
 * The page's state is the PostsPage class; the backend's answer and the clock are parameters.
 */
module Posts {
  import opened Wrappers
  import opened JsText
  import opened Entities

  const MinuteMs: int := 60000
  const HourMs: int := 3600000
  const DayMs: int := 86400000

  /** The argument list of the actor's createPost call. */
  datatype CreatePostCall = CreatePostCall(userId: string, content: string)

  /** The entry createPost puts in front of the list, stamped with the current time. */
  function NewEntry(content: string, now: int): (p: Post)
    ensures p.content == content && p.timestamp == now
    ensures p.id == "post-" + ToDecimal(now)
  {
    Post("post-" + ToDecimal(now), content, now)
  }

  /** createPost returns before doing anything when the draft is blank or no user id is set. */
  predicate CreatePostBlocked(draft: string, userId: string)
  {
    Trim(draft) == [] || userId == []
  }

  /** The submit button is disabled while a post is being sent or while the draft is blank. */
  predicate SubmitDisabled(loading: bool, draft: string)
  {
    loading || Trim(draft) == []
  }

  /** createPost sends nothing exactly when the draft is white space only or no user id is set. */
  lemma CreatePostBlockedIffBlank(draft: string, userId: string)
    ensures CreatePostBlocked(draft, userId) <==> AllWhiteSpace(draft) || userId == []
  {
    TrimEmptyIffAllWhiteSpace(draft);
  }

  /** The button is disabled exactly while a post is being sent or the draft is white space only. */
  lemma SubmitDisabledIffBusyOrBlank(loading: bool, draft: string)
    ensures SubmitDisabled(loading, draft) <==> loading || AllWhiteSpace(draft)
  {
    TrimEmptyIffAllWhiteSpace(draft);
  }

  /** How old a post is, as formatDate sorts it. */
  datatype Age = JustNow | MinutesAgo(minutes: int) | HoursAgo(hours: int) | OnDate(timestamp: int)

  /**
   * formatDate: less than a minute (including a timestamp in the future) is "just now";
   * less than an hour is whole minutes; less than a day is whole hours; else the date itself.
   */
  function FormatDate(now: int, timestamp: int): (a: Age)
    ensures a == JustNow <==> now - timestamp < MinuteMs
    ensures a.MinutesAgo? <==> MinuteMs <= now - timestamp < HourMs
    ensures a.HoursAgo? <==> HourMs <= now - timestamp < DayMs
    ensures a.OnDate? <==> DayMs <= now - timestamp
    ensures a.MinutesAgo? ==>
      1 <= a.minutes <= 59 && a.minutes * MinuteMs <= now - timestamp < (a.minutes + 1) * MinuteMs
    ensures a.HoursAgo? ==>
      1 <= a.hours <= 23 && a.hours * HourMs <= now - timestamp < (a.hours + 1) * HourMs
    ensures a.OnDate? ==> a.timestamp == timestamp
  {
    var diff := now - timestamp;
    if diff < MinuteMs then JustNow
    else if diff < HourMs then MinutesAgo(diff / MinuteMs)
    else if diff < DayMs then HoursAgo(diff / HourMs)
    else OnDate(timestamp)
  }

  /** The four kinds of age, youngest first. */
  function AgeRank(a: Age): nat
  {
    match a
    case JustNow => 0
    case MinutesAgo(_) => 1
    case HoursAgo(_) => 2
    case OnDate(_) => 3
  }

  /** An older post never looks younger than a newer one. */
  lemma FormatDateMonotone(now: int, newer: int, older: int)
    requires older <= newer
    ensures AgeRank(FormatDate(now, newer)) <= AgeRank(FormatDate(now, older))
    ensures FormatDate(now, newer).MinutesAgo? && FormatDate(now, older).MinutesAgo? ==>
      FormatDate(now, newer).minutes <= FormatDate(now, older).minutes
    ensures FormatDate(now, newer).HoursAgo? && FormatDate(now, older).HoursAgo? ==>
      FormatDate(now, newer).hours <= FormatDate(now, older).hours
  {
  }

  const MinutesSuffix: string := " menit yang lalu"
  const HoursSuffix: string := " jam yang lalu"

  /** The text shown for an age; the absolute date comes from the locale formatter, passed in. */
  function AgeText(a: Age, localeDate: string): (t: string)
    ensures a == JustNow ==> t == "Baru saja"
    ensures a.OnDate? ==> t == localeDate
    ensures a.MinutesAgo? ==> t == ToDecimal(a.minutes) + MinutesSuffix
    ensures a.HoursAgo? ==> t == ToDecimal(a.hours) + HoursSuffix
  {
    match a
    case JustNow => "Baru saja"
    case MinutesAgo(m) => ToDecimal(m) + MinutesSuffix
    case HoursAgo(h) => ToDecimal(h) + HoursSuffix
    case OnDate(_) => localeDate
  }

  /** The count shown for minutes or hours is the count formatDate computed. */
  lemma AgeTextShowsCount(now: int, timestamp: int, localeDate: string)
    ensures FormatDate(now, timestamp).MinutesAgo? ==>
      ParseInt(AgeText(FormatDate(now, timestamp), localeDate)) == Some((now - timestamp) / MinuteMs)
    ensures FormatDate(now, timestamp).HoursAgo? ==>
      ParseInt(AgeText(FormatDate(now, timestamp), localeDate)) == Some((now - timestamp) / HourMs)
  {
    match FormatDate(now, timestamp)
    case MinutesAgo(m) => ParseIntToDecimal(m, MinutesSuffix);
    case HoursAgo(h) => ParseIntToDecimal(h, HoursSuffix);
    case _ =>
  }

  const DemoContent1: string :=
    "Baru saja membeli beberapa OwnSphere Token. Sangat bersemangat untuk masa depan platform ini!"
  const DemoContent2: string :=
    "Saran investasi dari platform ini sangat membantu. Sudah melihat pertumbuhan 15% dalam portofolio saya bulan ini."

  /**
   * The two posts the page shows after mounting: a day old and twelve hours old, each against
   * its own read of the clock.
   */
  function DemoPosts(firstRead: int, secondRead: int): seq<Post>
  {
    [Post("post-1", DemoContent1, firstRead - DayMs), Post("post-2", DemoContent2, secondRead - 12 * HourMs)]
  }

  /** The state of the posts page: its useState variables. */
  class PostsPage {
    var posts: seq<Post>
    var newPost: string
    var loading: bool
    var userId: string

    constructor ()
      ensures posts == [] && newPost == "" && !loading && userId == ""
    {
      posts, newPost, loading, userId := [], "", false, "";
    }

    /**
     * The mount effect: sets the demo user id and seeds the list with the demo posts;
     * `firstRead` and `secondRead` are the two readings of the clock it takes.
     */
    method Mount(firstRead: int, secondRead: int)
      modifies this
      ensures userId == DemoUserId && posts == DemoPosts(firstRead, secondRead)
      ensures newPost == old(newPost) && loading == old(loading)
    {
      userId := DemoUserId;
      posts := DemoPosts(firstRead, secondRead);
    }

    /** The textarea's onChange. */
    method EditDraft(text: string)
      modifies this
      ensures newPost == text
      ensures posts == old(posts) && loading == old(loading) && userId == old(userId)
    {
      newPost := text;
    }

    /**
     * createPost. `sent` is the backend call made, if any; `backend` is how that call ended;
     * `now` is the clock; `loadingWhilePending` is `loading` while the call is awaited.
     */
    method CreatePost(backend: Outcome<bool>, now: int) returns (sent: Option<CreatePostCall>, ghost loadingWhilePending: bool)
      modifies this
      ensures sent == if CreatePostBlocked(old(newPost), old(userId)) then None
                      else Some(CreatePostCall(old(userId), old(newPost)))
      ensures userId == old(userId)
      ensures sent.None? ==> posts == old(posts) && newPost == old(newPost) && loading == old(loading)
      ensures sent.Some? ==> loadingWhilePending && !loading
      ensures sent.Some? && backend == Returned(true) ==>
        posts == [NewEntry(old(newPost), now)] + old(posts) && newPost == ""
      ensures sent.Some? && backend != Returned(true) ==>
        posts == old(posts) && newPost == old(newPost)
    {
      if CreatePostBlocked(newPost, userId) {
        return None, loading;
      }
      loading := true;
      sent := Some(CreatePostCall(userId, newPost));
      loadingWhilePending := loading;
      match backend {
        case Returned(result) =>
          if result {
            posts := [NewEntry(newPost, now)] + posts;
            newPost := "";
          }
        case Thrown =>
      }
      loading := false;
    }
  }
}
