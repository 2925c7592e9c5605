/** runSafely: runs a block once and captures how it ended in a
    kotlin.Result, except that coroutine cancellation is thrown on. */
module CoreUtils {
  import opened Outcomes

  /** The block is given by the one outcome of its single evaluation; the
      result is how runSafely itself ends. */
  function RunSafely<R>(block: Outcome<R>): (r: Outcome<Caught<R>>)
    ensures block.Returned? ==> r == Returned(Succeeded(block.value))
    ensures r.Cancelled? <==> block.Cancelled?
    ensures block.Threw? ==> r == Returned(Failed(block.error))
    ensures !r.Threw?
  {
    match block
    case Returned(v) => Returned(Succeeded(v))
    case Cancelled => Cancelled
    case Threw(e) => Returned(Failed(e))
  }

  /** Nothing is lost: throwing the captured failure again (getOrThrow)
      reproduces the block's own outcome. */
  lemma RunSafelyThenGetOrThrow<R>(block: Outcome<R>)
    ensures match RunSafely(block)
            case Returned(c) => GetOrThrow(c) == block
            case Cancelled => block == Cancelled
            case Threw(_) => false
  {
  }
}
