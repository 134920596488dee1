/**
 * The merge step of `fetchImages` (app/home/index.js): what the result list
 * becomes once the search API has answered.
 */
module Results {
  import opened Wrappers

  /** `{ success, data?: { hits } }`; `hits` is `None` when the payload lacks it. */
  datatype Response<T> = Response(success: bool, hits: Option<seq<T>>)

  /** `response.success && response?.data?.hits`: an empty array is truthy,
      so an empty page of hits is still delivered. */
  predicate Delivers<T>(response: Response<T>)
    ensures !response.success ==> !Delivers(response)
    ensures response.hits.None? ==> !Delivers(response)
    ensures response.success && response.hits.Some? ==> Delivers(response)
  {
    response.success && response.hits.Some?
  }

  /** The images after the response is merged, in append or replace mode. */
  function Merge<T>(images: seq<T>, response: Response<T>, append: bool): (r: seq<T>)
    ensures !Delivers(response) ==> r == images
    ensures Delivers(response) && !append ==> r == response.hits.value
    ensures Delivers(response) && append ==>
      |r| == |images| + |response.hits.value| && r[..|images|] == images && r[|images|..] == response.hits.value
  {
    if Delivers(response) then
      if append then images + response.hits.value else response.hits.value
    else images
  }

  /** Appending to an empty list is the same as replacing it: the default
      append of clearThisFilter, issued right after the list was cleared,
      behaves as a replace. */
  lemma AppendToEmptyIsReplace<T>(response: Response<T>)
    ensures Merge([], response, true) == Merge([], response, false)
  {
  }

  /** Two successful next-page loads leave the old list followed by both
      pages in order, so the list grows by the sum of the page sizes. */
  lemma TwoPagesAppend<T>(images: seq<T>, first: Response<T>, second: Response<T>)
    requires Delivers(first) && Delivers(second)
    ensures Merge(Merge(images, first, true), second, true) == images + first.hits.value + second.hits.value
    ensures |Merge(Merge(images, first, true), second, true)|
         == |images| + |first.hits.value| + |second.hits.value|
  {
  }

  /** A failed fetch in either mode leaves the list untouched, whatever came before. */
  lemma FailureKeepsImages<T>(images: seq<T>, response: Response<T>, append: bool)
    requires !response.success
    ensures Merge(images, response, append) == images
  {
  }
}
