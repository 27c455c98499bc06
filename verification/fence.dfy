/**
 * The fenced-output extractor.  Every stage that expects a JSON payload from
 * the text generator first cuts the payload out of a Markdown code fence with
 * one three-branch rule (agents/scripting.py, agents/voice_over.py,
 * agents/assembly.py all repeat it verbatim); this module defines it once.
 */
module Fence {
  import opened Wrappers
  import opened Text

  /** The tagged opening fence. */
  const JsonOpen := "```json"
  /** A bare fence. */
  const Tick3 := "```"

  /**
   * `if "```json" in r: r.split("```json")[1].split("```")[0].strip()`
   * `elif "```" in r: r.split("```")[1].split("```")[0].strip()`, else `r`.
   */
  function Extract(reply: string): string {
    if Contains(reply, JsonOpen) then
      Strip(SplitFirst(SplitSecond(reply, JsonOpen), Tick3))
    else if Contains(reply, Tick3) then
      Strip(SplitFirst(SplitSecond(reply, Tick3), Tick3))
    else
      reply
  }

  /** A tagged fence contains a bare fence. */
  lemma {:induction false} TaggedHasFence(s: string)
    requires Contains(s, JsonOpen)
    ensures Contains(s, Tick3)
  {
    var i: nat :| i <= |s| && OccursAt(s, JsonOpen, i);
    assert s[i..i + 3] == s[i..i + 7][..3];
    assert OccursAt(s, Tick3, i);
  }

  /** The text after the first occurrence of `open`, which starts at `i`. */
  lemma {:induction false} SplitSecondAt(reply: string, open: string, i: nat)
    requires OccursAt(reply, open, i)
    requires forall j: nat :: j < i ==> !OccursAt(reply, open, j)
    ensures Contains(reply, open)
    ensures SplitSecond(reply, open) == SplitFirst(reply[i + |open|..], open)
  {
    FindFirst(reply, open, i);
    assert Contains(reply, open) by { assert i <= |reply| && OccursAt(reply, open, i); }
  }

  /**
   * In `t`, the first bare fence starts at `e` (or there is none and `e == |t|`);
   * then `t.split("```")[0]` is `t[..e]`.
   */
  lemma {:induction false} CutAtFirstFence(t: string, e: nat)
    requires e <= |t|
    requires e == |t| || OccursAt(t, Tick3, e)
    requires forall j: nat :: j < e ==> !OccursAt(t, Tick3, j)
    ensures SplitFirst(t, Tick3) == t[..e]
  {
    if e < |t| {
      FindFirst(t, Tick3, e);
    } else {
      assert !Contains(t, Tick3) by {
        forall j: nat
          ensures !OccursAt(t, Tick3, j)
        {
          if j >= e { assert j + |Tick3| > |t|; }
        }
      }
    }
  }

  /** Cutting a prefix that holds no bare fence leaves it whole. */
  lemma {:induction false} CutFenceFree(t: string, n: nat)
    requires n <= |t|
    requires forall j: nat :: j < n ==> !OccursAt(t, Tick3, j)
    ensures SplitFirst(t[..n], Tick3) == t[..n]
  {
    forall j: nat
      ensures !OccursAt(t[..n], Tick3, j)
    {
      OccursInPrefix(t, Tick3, n, j);
    }
    assert !Contains(t[..n], Tick3);
  }

  /** Occurrences in `reply[a..]` restated as occurrences in `reply`. */
  lemma {:induction false} SuffixFenceFree(reply: string, a: nat, e: nat)
    requires a <= e <= |reply|
    requires forall j: nat :: a <= j < e ==> !OccursAt(reply, Tick3, j)
    ensures forall k: nat :: k < e - a ==> !OccursAt(reply[a..], Tick3, k)
  {
    forall k: nat | k < e - a
      ensures !OccursAt(reply[a..], Tick3, k)
    {
      OccursInSuffix(reply, Tick3, a, k);
    }
  }

  /**
   * Tagged branch: the payload is the stripped text after the first "```json"
   * and before the next "```", or up to the end of the reply when no fence
   * closes it.  This holds when the closing fence is not the head of a run of
   * four or more backticks; `ExtractBacktickRun` shows what happens otherwise.
   */
  lemma {:induction false} ExtractTagged(reply: string, i: nat, e: nat)
    requires OccursAt(reply, JsonOpen, i)
    requires forall j: nat :: j < i ==> !OccursAt(reply, JsonOpen, j)
    requires i + |JsonOpen| <= e <= |reply|
    requires e == |reply| || OccursAt(reply, Tick3, e)
    requires forall j: nat :: i + |JsonOpen| <= j < e ==> !OccursAt(reply, Tick3, j)
    requires e + |Tick3| < |reply| ==> reply[e + |Tick3|] != '`'
    ensures Extract(reply) == Strip(reply[i + |JsonOpen|..e])
  {
    var a := i + |JsonOpen|;
    SplitSecondAt(reply, JsonOpen, i);
    TaggedBody(reply, a, e);
  }

  /** After the tag at `a`, the double split keeps exactly `reply[a..e]`. */
  lemma {:induction false} TaggedBody(reply: string, a: nat, e: nat)
    requires a <= e <= |reply|
    requires e == |reply| || OccursAt(reply, Tick3, e)
    requires forall j: nat :: a <= j < e ==> !OccursAt(reply, Tick3, j)
    requires e + |Tick3| < |reply| ==> reply[e + |Tick3|] != '`'
    ensures SplitFirst(SplitFirst(reply[a..], JsonOpen), Tick3) == reply[a..e]
  {
    var t := reply[a..];
    SuffixFenceFree(reply, a, e);
    if e < |reply| { OccursInSuffix(reply, Tick3, a, e - a); }
    if e - a + 3 < |t| { assert t[e - a + 3] == reply[e + 3]; }
    CutTagged(t, e - a);
    assert t[..e - a] == reply[a..e];
  }

  /**
   * `t.split("```json")[0].split("```")[0]` is `t` cut at its first fence `e`,
   * provided that fence does not start a run of four or more backticks.
   */
  lemma {:induction false} CutTagged(t: string, e: nat)
    requires e <= |t|
    requires e == |t| || OccursAt(t, Tick3, e)
    requires forall j: nat :: j < e ==> !OccursAt(t, Tick3, j)
    requires e + 3 < |t| ==> t[e + 3] != '`'
    ensures SplitFirst(SplitFirst(t, JsonOpen), Tick3) == t[..e]
  {
    var f := Find(t, JsonOpen);
    if f.None? {
      CutAtFirstFence(t, e);
    } else {
      CutBeforeTag(t, e, f.value);
    }
  }

  lemma {:induction false} CutBeforeTag(t: string, e: nat, o: nat)
    requires e <= |t|
    requires e == |t| || OccursAt(t, Tick3, e)
    requires forall j: nat :: j < e ==> !OccursAt(t, Tick3, j)
    requires e + 3 < |t| ==> t[e + 3] != '`'
    requires Find(t, JsonOpen) == Some(o)
    ensures SplitFirst(SplitFirst(t, JsonOpen), Tick3) == t[..e]
  {
    assert SplitFirst(t, JsonOpen) == t[..o];
    // the tag at `o` starts with a fence, so the first fence is not after it
    assert t[o..o + 3] == t[o..o + 7][..3];
    assert OccursAt(t, Tick3, o);
    assert e <= o;
    if e < o {
      // the two fences cannot overlap: that would make `t[e + 3]` a backtick
      assert forall m :: o <= m < o + 3 ==> t[m] == t[o..o + 3][m - o] == '`';
      assert o >= e + 3;
      OccursInPrefix(t, Tick3, o, e);
      forall j: nat | j < e
        ensures !OccursAt(t[..o], Tick3, j)
      {
        OccursInPrefix(t, Tick3, o, j);
      }
      FindFirst(t[..o], Tick3, e);
      assert t[..o][..e] == t[..e];
    } else {
      CutFenceFree(t, o);
    }
  }

  /**
   * When the closing fence starts a run of four or more backticks that also
   * opens a second "```json", Python's double split keeps the extra backticks.
   */
  lemma {:induction false} ExtractBacktickRun(reply: string)
    requires reply == "```json{}````json"
    ensures Extract(reply) == "{}`"
  {
    var t := reply[7..];
    assert t == "{}````json";
    SecondTagAtThree(t);
    CutOfRun(t[..3]);
    assert Extract(reply) == Strip(SplitFirst(SplitFirst(t, JsonOpen), Tick3)) by {
      assert OccursAt(reply, JsonOpen, 0);
      SplitSecondAt(reply, JsonOpen, 0);
    }
  }

  lemma {:induction false} SecondTagAtThree(t: string)
    requires t == "{}````json"
    ensures SplitFirst(t, JsonOpen) == t[..3]
  {
    assert t[3..10] == JsonOpen;
    forall j: nat | j < 3
      ensures !OccursAt(t, JsonOpen, j)
    {
      assert t[j + 3] != 'j';
    }
    FindFirst(t, JsonOpen, 3);
  }

  lemma {:induction false} CutOfRun(u: string)
    requires u == "{}`"
    ensures Strip(SplitFirst(u, Tick3)) == u
  {
    forall j: nat
      ensures !OccursAt(u, Tick3, j)
    {
      if j == 0 { assert u[0] != '`'; }
    }
    assert !Contains(u, Tick3);
    assert LeadingSpace(u) == 0;
    assert TrailingSpace(u) == 0;
  }

  /** A pattern cannot occur where its first character is missing. */
  lemma NotAt(s: string, pat: string, j: nat)
    requires j < |s| && |pat| > 0 && s[j] != pat[0]
    ensures !OccursAt(s, pat, j)
  {
    if j + |pat| <= |s| { assert s[j..j + |pat|][0] == s[j]; }
  }

  /** A tagged block surrounded by prose yields its stripped body. */
  lemma {:induction false} ExtractProseExample(reply: string)
    requires reply == "prefix " + JsonOpen + "\n{\"a\":1}\n" + Tick3 + " suffix"
    ensures Extract(reply) == "{\"a\":1}"
  {
    assert reply[7..14] == JsonOpen;
    assert reply[14..23] == "\n{\"a\":1}\n";
    forall j: nat | j < 7
      ensures !OccursAt(reply, JsonOpen, j)
    {
      assert reply[j] != '`';
      NotAt(reply, JsonOpen, j);
    }
    assert reply[23..26] == Tick3;
    forall j: nat | 14 <= j < 23
      ensures !OccursAt(reply, Tick3, j)
    {
      assert reply[j] != '`';
      NotAt(reply, Tick3, j);
    }
    assert reply[26] == ' ';
    ExtractTagged(reply, 7, 23);
    StripNewlines(reply[14..23]);
  }

  lemma {:induction false} StripNewlines(u: string)
    requires u == "\n{\"a\":1}\n"
    ensures Strip(u) == "{\"a\":1}"
  {
    assert LeadingSpace(u[1..]) == 0;
    assert LeadingSpace(u) == 1;
    assert TrailingSpace(u[..|u| - 1]) == 0;
    assert TrailingSpace(u) == 1;
  }

  /** An unfenced reply is handed to the parser exactly as received. */
  lemma {:induction false} ExtractPlainExample(reply: string)
    requires reply == "{\"a\":1}"
    ensures Extract(reply) == reply
  {
    forall j: nat
      ensures !OccursAt(reply, Tick3, j)
    {
      if j + 3 <= |reply| { assert reply[j] != '`'; }
    }
    ExtractUnfenced(reply);
  }

  /** Without any fence the reply is passed on as it is, not even stripped. */
  lemma {:induction false} ExtractUnfenced(reply: string)
    requires !Contains(reply, Tick3)
    ensures Extract(reply) == reply
  {
    if Contains(reply, JsonOpen) { TaggedHasFence(reply); }
  }

  /** Whenever the reply held a fence, the payload holds none. */
  lemma {:induction false} ExtractRemovesFences(reply: string)
    requires Contains(reply, Tick3)
    ensures !Contains(Extract(reply), Tick3)
  {
    if Contains(reply, JsonOpen) {
      SplitFirstHasNoSep(SplitSecond(reply, JsonOpen), Tick3);
      StripKeepsAbsence(SplitFirst(SplitSecond(reply, JsonOpen), Tick3), Tick3);
    } else {
      SplitFirstHasNoSep(SplitSecond(reply, Tick3), Tick3);
      StripKeepsAbsence(SplitFirst(SplitSecond(reply, Tick3), Tick3), Tick3);
    }
  }

  /** Extracting twice is extracting once. */
  lemma {:induction false} ExtractIdempotent(reply: string)
    ensures Extract(Extract(reply)) == Extract(reply)
  {
    if Contains(reply, Tick3) {
      ExtractRemovesFences(reply);
      ExtractUnfenced(Extract(reply));
    } else {
      ExtractUnfenced(reply);
    }
  }
}
