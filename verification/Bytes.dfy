/** Bytes, options and separated text, shared by the rest. */
module Bytes {

  type Byte = b: int | 0 <= b < 256

  datatype Option<+T> = None | Some(value: T)

  /** The concatenation of a list of strings. */
  function Join<T>(parts: seq<seq<T>>): seq<T> {
    if parts == [] then [] else parts[0] + Join(parts[1..])
  }

  lemma ConcatAssoc<T>(a: seq<T>, b: seq<T>, c: seq<T>)
    ensures (a + b) + c == a + (b + c)
  {
  }

  lemma JoinOne<T>(x: seq<T>)
    ensures Join([x]) == x
  {
    var one := [x];
    assert one[1..] == [] && Join(one) == x + [];
  }

  lemma {:induction false} JoinConcat<T>(xs: seq<seq<T>>, ys: seq<seq<T>>)
    ensures Join(xs + ys) == Join(xs) + Join(ys)
  {
    if xs == [] {
      assert xs + ys == ys;
    } else {
      assert (xs + ys)[0] == xs[0] && (xs + ys)[1..] == xs[1..] + ys;
      JoinConcat(xs[1..], ys);
    }
  }

  lemma PrefixBeyond(a: seq<Byte>, b: seq<Byte>, s: seq<Byte>)
    requires s <= a + b && |a| <= |s|
    ensures s == a + s[|a|..] && s[|a|..] <= b
  {
    assert s == (a + b)[..|s|] == a + b[..|s| - |a|];
  }

  // ---------------------------------------------------------------- text with separators

  predicate Lacks(s: string, c: char) {
    forall i :: 0 <= i < |s| ==> s[i] != c
  }

  function JoinWith(parts: seq<string>, sep: char): string {
    if parts == [] then ""
    else if |parts| == 1 then parts[0]
    else parts[0] + [sep] + JoinWith(parts[1..], sep)
  }

  function Split(s: string, sep: char): (parts: seq<string>)
    ensures parts != []
  {
    if s == "" then [""]
    else
      var rest := Split(s[1..], sep);
      if s[0] == sep then [""] + rest else [[s[0]] + rest[0]] + rest[1..]
  }

  lemma {:induction false} SplitPlain(s: string, sep: char)
    requires Lacks(s, sep)
    ensures Split(s, sep) == [s]
  {
    if s != "" {
      SplitPlain(s[1..], sep);
      assert s == [s[0]] + s[1..];
    }
  }

  lemma {:induction false} SplitAt(s: string, t: string, sep: char)
    requires Lacks(s, sep)
    ensures Split(s + [sep] + t, sep) == [s] + Split(t, sep)
  {
    var whole := s + [sep] + t;
    if s == "" {
      assert whole[1..] == t && whole[0] == sep;
    } else {
      assert whole[1..] == s[1..] + [sep] + t && whole[0] == s[0];
      SplitAt(s[1..], t, sep);
      assert s == [s[0]] + s[1..];
    }
  }

  lemma {:induction false} SplitJoin(parts: seq<string>, sep: char)
    requires parts != [] && forall p <- parts :: Lacks(p, sep)
    ensures Split(JoinWith(parts, sep), sep) == parts
  {
    if |parts| == 1 {
      SplitPlain(parts[0], sep);
    } else {
      SplitAt(parts[0], JoinWith(parts[1..], sep), sep);
      SplitJoin(parts[1..], sep);
    }
  }

  lemma LacksConcat(s: string, t: string, c: char)
    requires Lacks(s, c) && Lacks(t, c)
    ensures Lacks(s + t, c)
  {
  }

  lemma {:induction false} JoinClean(parts: seq<string>, sep: char, c: char)
    requires c != sep && forall p <- parts :: Lacks(p, c)
    ensures Lacks(JoinWith(parts, sep), c)
  {
    if |parts| > 1 {
      JoinClean(parts[1..], sep, c);
      LacksConcat(parts[0], [sep], c);
      LacksConcat(parts[0] + [sep], JoinWith(parts[1..], sep), c);
    }
  }
}
