/** Token extraction as done by the formatted string extractor
    `std::istream >> std::string` (ISO C++ [string.io]) in the classic locale:
    skip leading white space, then take the longest run of non-white-space
    characters. A stream with nothing but white space yields the empty string,
    because the program's fresh string is never assigned. */
module Tokens {

  /** White space as classified by `isspace` in the "C" locale:
      space, and the control characters tab, newline, vertical tab,
      form feed and carriage return ('\t' .. '\r'). */
  predicate IsSpace(c: char) {
    c == ' ' || ('\t' <= c <= '\r')
  }

  /** Number of white-space characters the extractor's sentry skips. */
  function LeadingSpace(s: string): (n: nat)
    ensures n <= |s|
    ensures forall k :: 0 <= k < n ==> IsSpace(s[k])
    ensures n < |s| ==> !IsSpace(s[n])
  {
    if |s| == 0 || !IsSpace(s[0]) then 0 else 1 + LeadingSpace(s[1..])
  }

  /** Length of the run of non-white-space characters at the head of `s`. */
  function RunLength(s: string): (n: nat)
    ensures n <= |s|
    ensures forall k :: 0 <= k < n ==> !IsSpace(s[k])
    ensures n < |s| ==> IsSpace(s[n])
  {
    if |s| == 0 || IsSpace(s[0]) then 0 else 1 + RunLength(s[1..])
  }

  /** `s[i..j]` is the first white-space-delimited token of `s`: everything
      before `i` is white space, `[i, j)` is a maximal non-white-space run,
      and when the token is empty there is nothing left to read. */
  ghost predicate Delimits(s: string, i: int, j: int) {
    && 0 <= i <= j <= |s|
    && (forall k :: 0 <= k < i ==> IsSpace(s[k]))
    && (i < |s| ==> !IsSpace(s[i]))
    && (forall k :: i <= k < j ==> !IsSpace(s[k]))
    && (j < |s| ==> IsSpace(s[j]))
  }

  /** The string `inp >> fileContent` stores for a file whose content is `s`. */
  function FirstToken(s: string): (t: string)
    ensures forall k :: 0 <= k < |t| ==> !IsSpace(t[k])
    ensures Delimits(s, LeadingSpace(s), LeadingSpace(s) + |t|)
    ensures t == s[LeadingSpace(s)..LeadingSpace(s) + |t|]
  {
    var i := LeadingSpace(s);
    s[i..i + RunLength(s[i..])]
  }

  /** The token is characterised by its delimiting positions, in both
      directions: `FirstToken` delimits its own bounds, and any pair of
      delimiting bounds is the one `FirstToken` picks. */
  lemma DelimitsIff(s: string, i: int, j: int)
    ensures Delimits(s, i, j) <==> (i == LeadingSpace(s) && j == i + |FirstToken(s)|)
  {
  }

  /** Any delimited slice is the token. */
  lemma TokenOfDelimits(s: string, i: int, j: int)
    requires Delimits(s, i, j)
    ensures s[i..j] == FirstToken(s)
  {
    DelimitsIff(s, i, j);
  }

  /** The token is empty exactly when the content is all white space
      (in particular when the file is empty). */
  lemma EmptyTokenIff(s: string)
    ensures FirstToken(s) == [] <==> forall k :: 0 <= k < |s| ==> IsSpace(s[k])
  {
  }

  /** Reading a token back from a token gives the same token. */
  lemma {:induction false} FirstTokenIdempotent(s: string)
    ensures FirstToken(FirstToken(s)) == FirstToken(s)
  {
    var t := FirstToken(s);
    assert Delimits(t, 0, |t|);
    TokenOfDelimits(t, 0, |t|);
  }

  /** One white-space character in front is skipped by the sentry. */
  lemma SkipOneSpace(x: string)
    requires |x| > 0 && IsSpace(x[0])
    ensures FirstToken(x) == FirstToken(x[1..])
  {
    var i := LeadingSpace(x[1..]);
    assert LeadingSpace(x) == 1 + i;
    assert x[1 + i..] == x[1..][i..];
  }

  /** White space in front of the content does not change the token. */
  lemma {:induction false} LeadingSpaceIgnored(w: string, s: string)
    requires forall k :: 0 <= k < |w| ==> IsSpace(w[k])
    ensures FirstToken(w + s) == FirstToken(s)
    decreases |w|
  {
    if w == [] {
      assert w + s == s;
    } else {
      assert forall k :: 0 <= k < |w[1..]| ==> w[1..][k] == w[k + 1];
      calc {
        FirstToken(w + s);
        == { assert (w + s)[0] == w[0]; SkipOneSpace(w + s); }
        FirstToken((w + s)[1..]);
        == { assert (w + s)[1..] == w[1..] + s; }
        FirstToken(w[1..] + s);
        == { LeadingSpaceIgnored(w[1..], s); }
        FirstToken(s);
      }
    }
  }
}
