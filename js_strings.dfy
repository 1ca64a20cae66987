/**
 * The String.prototype operations the modelled code relies on, over `seq<char>`:
 * `startsWith`, `replace` with a string pattern, and `split` on a one-character
 * separator, with `join` as the inverse of `split`.
 */
module JsStrings {
  import opened Wrappers

  /** `s.startsWith(p)`. */
  predicate StartsWith(s: string, p: string) {
    |p| <= |s| && s[..|p|] == p
  }

  /** The pattern `p` occurs in `s` starting at index `i`. */
  predicate OccursAt(s: string, p: string, i: nat) {
    i + |p| <= |s| && s[i..i + |p|] == p
  }

  /** The first index at or after `from` where `p` occurs in `s`, as `s.indexOf(p, from)` finds it. */
  function IndexOfFrom(s: string, p: string, from: nat): (r: Option<nat>)
    decreases |s| + 1 - from
    ensures r.Some? ==> from <= r.value && OccursAt(s, p, r.value)
    ensures r.Some? ==> forall j :: from <= j < r.value ==> !OccursAt(s, p, j)
    ensures r.None? ==> forall j: nat :: from <= j ==> !OccursAt(s, p, j)
  {
    if from + |p| > |s| then None
    else if OccursAt(s, p, from) then Some(from)
    else IndexOfFrom(s, p, from + 1)
  }

  /**
   * `s.replace(p, q)` with a string pattern: only the FIRST occurrence of `p`
   * is replaced, wherever it is; without an occurrence `s` comes back unchanged.
   * `q` is inserted literally: the `$&`, `$$`, `` $` `` and `$'` patterns that
   * JavaScript expands in a replacement string are not modelled (the code only
   * replaces with `''`).
   */
  function ReplaceFirst(s: string, p: string, q: string): (r: string)
    ensures (forall j: nat :: !OccursAt(s, p, j)) ==> r == s
    ensures forall i: nat :: OccursAt(s, p, i) && (forall j :: 0 <= j < i ==> !OccursAt(s, p, j)) ==>
              r == s[..i] + q + s[i + |p|..]
    ensures StartsWith(s, p) ==> r == q + s[|p|..]
  {
    match IndexOfFrom(s, p, 0)
    case None => s
    case Some(i) => s[..i] + q + s[i + |p|..]
  }

  /** Number of occurrences of `c` in `s`. */
  function Count(s: string, c: char): nat {
    if s == [] then 0 else (if s[0] == c then 1 else 0) + Count(s[1..], c)
  }

  /**
   * `s.split(sep)` for a one-character separator: the pieces between separators,
   * in order, none of them holding the separator; an empty `s` gives one empty piece.
   */
  function Split(s: string, sep: char): (parts: seq<string>)
    ensures |parts| >= 1
    ensures forall k :: 0 <= k < |parts| ==> sep !in parts[k]
  {
    if s == [] then [[]]
    else
      var rest := Split(s[1..], sep);
      if s[0] == sep then [[]] + rest
      else [[s[0]] + rest[0]] + rest[1..]
  }

  /** `parts.join(sep)`. */
  function Join(parts: seq<string>, sep: char): string
    requires |parts| >= 1
  {
    if |parts| == 1 then parts[0] else parts[0] + [sep] + Join(parts[1..], sep)
  }

  /** Splitting yields exactly one piece more than there are separators. */
  lemma {:induction false} SplitLength(s: string, sep: char)
    ensures |Split(s, sep)| == Count(s, sep) + 1
  {
    if s != [] {
      SplitLength(s[1..], sep);
    }
  }

  /** Joining the pieces back with the separator rebuilds the string. */
  lemma {:induction false} JoinSplit(s: string, sep: char)
    ensures Join(Split(s, sep), sep) == s
  {
    if s != [] {
      var rest := Split(s[1..], sep);
      JoinSplit(s[1..], sep);
      if s[0] == sep {
        assert Split(s, sep)[1..] == rest;
      } else {
        var parts := Split(s, sep);
        assert parts[1..] == rest[1..];
        if |rest| == 1 {
          assert parts == [[s[0]] + rest[0]];
        } else {
          assert Join(rest, sep) == rest[0] + [sep] + Join(rest[1..], sep);
        }
      }
    }
  }

  /** Pieces free of the separator are recovered by splitting their join. */
  lemma {:induction false} SplitJoin(parts: seq<string>, sep: char)
    requires |parts| >= 1
    requires forall k :: 0 <= k < |parts| ==> sep !in parts[k]
    ensures Split(Join(parts, sep), sep) == parts
  {
    if |parts| == 1 {
      SplitPiece(parts[0], sep, []);
      assert parts[0] + [] == parts[0];
    } else {
      var tail := [sep] + Join(parts[1..], sep);
      SplitJoin(parts[1..], sep);
      SplitPiece(parts[0], sep, tail);
      assert Join(parts, sep) == parts[0] + tail;
      assert tail[0] == sep && tail[1..] == Join(parts[1..], sep);
      assert Split(tail, sep) == [[]] + parts[1..];
      assert parts[0] + [] == parts[0];
      assert parts == [parts[0]] + parts[1..];
    }
  }

  /** A separator-free piece in front of `tail` joins the first piece of `tail`'s split. */
  lemma {:induction false} SplitPiece(piece: string, sep: char, tail: string)
    requires sep !in piece
    ensures var rest := Split(tail, sep);
      Split(piece + tail, sep) == [piece + rest[0]] + rest[1..]
  {
    var rest := Split(tail, sep);
    if piece != [] {
      SplitPiece(piece[1..], sep, tail);
      var s := piece + tail;
      assert s[0] == piece[0] && s[0] != sep;
      assert s[1..] == piece[1..] + tail;
      assert [s[0]] + (piece[1..] + rest[0]) == piece + rest[0];
    } else {
      assert piece + tail == tail;
      assert piece + rest[0] == rest[0];
      assert rest == [rest[0]] + rest[1..];
    }
  }
}
