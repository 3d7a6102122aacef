/**
  Searching a byte string for the first of a set of bytes, as Go's
  `bytes.IndexAny` and `bytes.IndexRune` do: the one search the tokenizer
  and the field parser build on.
 */
module Bytes {

  /** Index of the first element of `s` that is one of `chars`, or -1 when there is none. */
  function IndexAny(s: seq<char>, chars: seq<char>): (i: int)
    ensures -1 <= i < |s|
    ensures i == -1 <==> forall k :: 0 <= k < |s| ==> s[k] !in chars
    ensures 0 <= i ==> s[i] in chars && forall k :: 0 <= k < i ==> s[k] !in chars
  {
    if |s| == 0 then -1
    else if s[0] in chars then 0
    else
      var j := IndexAny(s[1..], chars);
      assert forall k :: 1 <= k < |s| ==> s[k] == s[1..][k - 1];
      if j == -1 then -1 else j + 1
  }
}
