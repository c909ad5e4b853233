/** Values shared by every component: Java's nullable references, the results of
    remote calls (each one already routed through the retry executor) and the
    pages that paginated endpoints answer with. */
module Outcomes {

  datatype Option<+T> = None | Some(value: T)

  datatype Result<+T, +E> = Ok(value: T) | Err(error: E)

  /** A Java `String` reference: `None` stands for `null`. */
  type JString = Option<string>

  /** The exceptions the core raises or lets through. */
  datatype Error =
    | ApiFailure(message: string)   // any failure of a remote call other than rate limiting
    | RetryExhausted                // RuntimeException("Max retry attempts exceeded")
    | InvalidTrackUri(uri: string)  // IllegalArgumentException of getTrackInfo
    | NoInputLine                   // Scanner.nextLine() on an exhausted standard input
  {
    /** The message the Java exception carries. */
    function Message(): string {
      match this
      case ApiFailure(m) => m
      case RetryExhausted => "Max retry attempts exceeded"
      case InvalidTrackUri(u) => "Invalid Spotify track URI: " + u
      case NoInputLine => "No line found"
    }
  }

  /** The outcome of one remote request after the retry executor. */
  type Response<T> = Result<T, Error>

  /** One page of a paginated endpoint: its items and its `next` link
      (`null` on the last page). */
  datatype Page<T> = Page(items: seq<T>, next: JString)

  /** The page a walk receives for its `k`-th request. Asking past the supplied
      pages yields an empty last page: the remote collection has ended. */
  function PageAt<T>(pages: seq<Response<Page<T>>>, k: nat): (r: Response<Page<T>>)
    ensures k >= |pages| ==> r == Ok(Page([], None))
    ensures k < |pages| ==> r == pages[k]
  {
    if k < |pages| then pages[k] else Ok(Page([], None))
  }

  /** The items of a fan-out task: a failed task contributes nothing. */
  function ItemsOrEmpty<T>(r: Response<seq<T>>): seq<T> {
    match r
    case Ok(items) => items
    case Err(_) => []
  }
}
