/** Options and the feeder tables (feeders.py, mlat_stats.py). */
module Feeders {
  /** Option values as far as the program tells them apart. */
  datatype Json = Null | Bool(b: bool) | Text(s: string) | Number(text: string)

  type Options = map<string, Json>

  /** The characters str.strip removes. */
  predicate IsSpace(c: char) {
    || '\U{9}' <= c <= '\U{d}' || '\U{1c}' <= c <= ' ' || c == '\U{85}' || c == '\U{a0}'
    || c == '\U{1680}' || '\U{2000}' <= c <= '\U{200a}' || c == '\U{2028}' || c == '\U{2029}'
    || c == '\U{202f}' || c == '\U{205f}' || c == '\U{3000}'
  }

  function Strip(s: string): string
    decreases |s|
  {
    if s == "" then ""
    else if IsSpace(s[0]) then Strip(s[1..])
    else if IsSpace(s[|s| - 1]) then Strip(s[..|s| - 1])
    else s
  }

  function Lower(s: string): string {
    if s == "" then ""
    else [if 'A' <= s[0] <= 'Z' then s[0] + ('a' - 'A') else s[0]] + Lower(s[1..])
  }

  predicate Truthy(v: Json) {
    v == Bool(true) || (v.Text? && Lower(Strip(v.s)) == "true")
  }

  predicate Enabled(options: Options, flag: string) {
    flag in options && Truthy(options[flag])
  }

  predicate AllSpace(s: string) {
    forall i :: 0 <= i < |s| ==> IsSpace(s[i])
  }

  /** The word "true", in any mix of cases. */
  predicate SaysTrue(w: string) {
    && |w| == 4 && (w[0] == 't' || w[0] == 'T') && (w[1] == 'r' || w[1] == 'R')
    && (w[2] == 'u' || w[2] == 'U') && (w[3] == 'e' || w[3] == 'E')
  }

  ghost predicate Padded(s: string, pre: string, w: string, post: string) {
    s == pre + w + post && AllSpace(pre) && AllSpace(post)
  }

  lemma {:induction false} StripLeaves(s: string) returns (pre: string, post: string)
    ensures Padded(s, pre, Strip(s), post)
    decreases |s|
  {
    if s == "" {
      pre, post := "", "";
    } else if IsSpace(s[0]) {
      pre, post := StripLeaves(s[1..]);
      pre := [s[0]] + pre;
      assert s == [s[0]] + s[1..];
    } else if IsSpace(s[|s| - 1]) {
      pre, post := StripLeaves(s[..|s| - 1]);
      post := post + [s[|s| - 1]];
      assert s == s[..|s| - 1] + [s[|s| - 1]];
    } else {
      pre, post := "", "";
      assert s == "" + s + "";
    }
  }

  lemma DropFirst(s: string, pre: string, w: string, post: string)
    requires s == pre + w + post && pre != ""
    ensures s != "" && s[0] == pre[0] && s[1..] == pre[1..] + w + post
  {
    var rest := pre[1..] + w + post;
    assert |s| == 1 + |rest|;
    assert forall i :: 0 <= i < |rest| ==> s[1..][i] == rest[i];
  }

  lemma DropLast(s: string, pre: string, w: string, post: string)
    requires s == pre + w + post && post != ""
    ensures s != "" && s[|s| - 1] == post[|post| - 1] && s[..|s| - 1] == pre + w + post[..|post| - 1]
  {
    var rest := pre + w + post[..|post| - 1];
    assert |s| == 1 + |rest|;
    assert forall i :: 0 <= i < |rest| ==> s[..|s| - 1][i] == rest[i];
  }

  lemma {:induction false} StripFinds(s: string, pre: string, w: string, post: string)
    requires Padded(s, pre, w, post) && w != "" && !IsSpace(w[0]) && !IsSpace(w[|w| - 1])
    ensures Strip(s) == w
    decreases |s|
  {
    if pre != "" {
      DropFirst(s, pre, w, post);
      StripFinds(s[1..], pre[1..], w, post);
    } else if post != "" {
      DropLast(s, pre, w, post);
      assert s[0] == w[0];
      StripFinds(s[..|s| - 1], pre, w, post[..|post| - 1]);
    } else {
      assert s == w;
    }
  }

  lemma {:induction false} LowerEach(s: string)
    ensures |Lower(s)| == |s|
    ensures forall i :: 0 <= i < |s| ==> Lower(s)[i] == if 'A' <= s[i] <= 'Z' then s[i] + ('a' - 'A') else s[i]
  {
    if s != "" {
      LowerEach(s[1..]);
    }
  }

  lemma LowerTrue(w: string)
    ensures Lower(w) == "true" <==> SaysTrue(w)
  {
    LowerEach(w);
    if SaysTrue(w) {
      var l, word := Lower(w), "true";
      assert |l| == |word| && l[0] == word[0] && l[1] == word[1] && l[2] == word[2] && l[3] == word[3];
      assert l == word;
    }
  }

  /** A text switches a feeder on if and only if it is the word "true", in any mix
      of cases and with any white space around it. */
  lemma TruthyText(s: string)
    ensures Truthy(Text(s)) <==> exists pre, w, post :: Padded(s, pre, w, post) && SaysTrue(w)
  {
    LowerTrue(Strip(s));
    if SaysTrue(Strip(s)) {
      var pre, post := StripLeaves(s);
      assert Padded(s, pre, Strip(s), post);
    }
    if pre, w, post :| Padded(s, pre, w, post) && SaysTrue(w) {
      StripFinds(s, pre, w, post);
    }
  }

  /** Of the other values only a plain true does. */
  lemma TruthyOther(v: Json)
    requires !v.Text?
    ensures Truthy(v) <==> v == Bool(true)
  {
  }

  datatype Community = Community(key: string, flag: string, host: string, port: string)

  datatype Mode = Conn | Report | Proc

  datatype Client = Client(key: string, flag: string, token: string, mode: Mode)

  /** Some part of text is token. */
  predicate Contains(text: string, token: string) {
    exists i :: 0 <= i <= |text| && token <= text[i..]
  }

  /** The processes whose command line mentions token. */
  function PidsOf(cmdByPid: map<nat, string>, token: string): set<nat> {
    set pid | pid in cmdByPid && Contains(cmdByPid[pid], token)
  }
}
