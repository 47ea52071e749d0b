/** What the two onboarding pages share: the browser's `File` values they keep
    in their upload lists, and the two JavaScript array operations they apply
    to those lists, `slice(0, end)` and `filter((_, i) => i !== index)`. */
module Uploads {
  import opened Strings

  /** A browser `File`; the pages only store, count and drop these. */
  datatype File = File(name: string, mimeType: string, size: nat)

  /** JavaScript `a.slice(0, end)`: a negative `end` counts from the back,
      and the result never runs past either end of `a`. */
  function SliceTo<T>(a: seq<T>, end: int): (r: seq<T>)
    ensures r <= a
    ensures 0 <= end ==> |r| == Min(end, |a|)
    ensures end < 0 ==> |r| == Max(0, |a| + end)
  {
    if end < 0 then a[..Max(0, |a| + end)] else a[..Min(end, |a|)]
  }

  /** JavaScript `a.filter((_, i) => i !== index)`: drops the element at
      `index` and keeps the rest in order; an index outside the list drops
      nothing. */
  function RemoveAt<T>(a: seq<T>, index: int): (r: seq<T>)
    ensures 0 <= index < |a| ==> r == a[..index] + a[index + 1..]
    ensures !(0 <= index < |a|) ==> r == a
    decreases |a|
  {
    if a == [] then []
    else (if index == 0 then [] else [a[0]]) + RemoveAt(a[1..], index - 1)
  }
}
