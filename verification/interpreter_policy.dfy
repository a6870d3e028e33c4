/**
 * The interpreter strategy: the chat model writes one piece of policy code,
 * the code is cut out of its reply, and each round an interpreter runs it
 * to get an arm; when the run fails or the choice is not an integer, a UCB
 * rule decides instead. Every arm is clipped into range before its reward
 * is read. The chat model's reply and the interpreter are oracles.
 */
module InterpreterPolicy {
  import opened Wrappers
  import opened Seqs
  import opened Text
  import opened Histories
  import opened Shared
  import opened NoCodePolicy

  /** One entry of an arm's history as the fallback rule sees it: a number
    * (`int`, `float`, `bool` or a numpy number), a list or tuple, or
    * anything else. */
  datatype Entry = Num(value: real) | Items(items: seq<Entry>) | Opaque

  /** One level of flattening: lists and tuples give their items, every
    * other entry stays. */
  function FlattenOnce(hist: seq<Entry>): seq<Entry> {
    if hist == [] then []
    else
      var n := |hist|;
      FlattenOnce(hist[..n - 1]) + (if hist[n - 1].Items? then hist[n - 1].items else [hist[n - 1]])
  }

  /** A history is flattened only when its first entry is a list or tuple. */
  function Flatten(hist: seq<Entry>): seq<Entry> {
    if hist != [] && hist[0].Items? then FlattenOnce(hist) else hist
  }

  /** The numeric entries, as reals. */
  function Numbers(hist: seq<Entry>): (xs: seq<real>)
    ensures |xs| <= |hist|
  {
    if hist == [] then []
    else
      var n := |hist|;
      Numbers(hist[..n - 1]) + (if hist[n - 1].Num? then [hist[n - 1].value] else [])
  }

  /** The fallback score of one arm: infinity when its (flattened) history
    * is empty or holds no number, otherwise the mean of the numbers plus
    * the bonus for round `t` and the count of all flattened entries. */
  function FallbackScore(hist: seq<Entry>, t: nat, bonus: (nat, nat) -> real): (s: Score)
    ensures s.Infinite? <==> Numbers(Flatten(hist)) == []
  {
    var flat := Flatten(hist);
    if |flat| == 0 then Infinite
    else
      var nums := Numbers(flat);
      if |nums| == 0 then Infinite else Finite(Mean(nums) + bonus(t, |flat|))
  }

  /** `history.get(i, [])`. */
  function ArmEntries(history: map<int, seq<Entry>>, i: int): seq<Entry> {
    if i in history then history[i] else []
  }

  /** `fallback_ucb`: arm `t` during the first `n_arms` rounds, afterwards
    * the first arm of highest fallback score. An arm count of zero or less
    * has no arm to return. */
  function FallbackUcb(history: map<int, seq<Entry>>, t: nat, nArms: int, bonus: (nat, nat) -> real): (a: int)
    requires nArms > 0
    ensures t < nArms ==> a == t
    ensures 0 <= a < nArms
    ensures t >= nArms ==> forall j :: 0 <= j < nArms ==>
              !Below(FallbackScore(ArmEntries(history, a), t, bonus), FallbackScore(ArmEntries(history, j), t, bonus))
    ensures t >= nArms ==> forall j :: 0 <= j < a ==>
              Below(FallbackScore(ArmEntries(history, j), t, bonus), FallbackScore(ArmEntries(history, a), t, bonus))
  {
    if t < nArms then t else FirstMax(FallbackScores(history, t, nArms, bonus))
  }

  /** The fallback score of every arm. */
  function FallbackScores(history: map<int, seq<Entry>>, t: nat, nArms: nat, bonus: (nat, nat) -> real): (vals: seq<Score>)
    ensures |vals| == nArms
    ensures forall i :: 0 <= i < nArms ==> vals[i] == FallbackScore(ArmEntries(history, i), t, bonus)
  {
    seq(nArms, i requires 0 <= i < nArms => FallbackScore(ArmEntries(history, i), t, bonus))
  }

  /** After the first `n_arms` rounds an arm with no numeric history wins:
    * the fallback picks the lowest-index such arm. */
  lemma FallbackPrefersUnscored(history: map<int, seq<Entry>>, t: nat, nArms: int, bonus: (nat, nat) -> real, i: int)
    requires 0 <= i < nArms <= t
    requires Numbers(Flatten(ArmEntries(history, i))) == []
    ensures var a := FallbackUcb(history, t, nArms, bonus);
            Numbers(Flatten(ArmEntries(history, a))) == [] && a <= i
            && forall j :: 0 <= j < a ==> Numbers(Flatten(ArmEntries(history, j))) != []
  {
    var a := FallbackUcb(history, t, nArms, bonus);
    assert !Below(FallbackScore(ArmEntries(history, a), t, bonus), FallbackScore(ArmEntries(history, i), t, bonus));
  }

  /** A history of plain rewards scores its mean plus the bonus for its
    * length, or infinity when empty. */
  lemma {:induction false} RewardHistoryScore(h: seq<real>, t: nat, bonus: (nat, nat) -> real)
    ensures FallbackScore(AsEntries(h), t, bonus) == if h == [] then Infinite else Finite(Mean(h) + bonus(t, |h|))
  {
    NumbersOfRewards(h);
  }

  lemma {:induction false} NumbersOfRewards(h: seq<real>)
    ensures Numbers(AsEntries(h)) == h
  {
    if h != [] {
      var n := |h|;
      NumbersOfRewards(h[..n - 1]);
      assert AsEntries(h)[..n - 1] == AsEntries(h[..n - 1]);
    }
  }

  /** A list of rewards as history entries. */
  function AsEntries(h: seq<real>): (es: seq<Entry>)
    ensures |es| == |h|
    ensures forall j :: 0 <= j < |h| ==> es[j] == Num(h[j])
  {
    seq(|h|, j requires 0 <= j < |h| => Num(h[j]))
  }

  /** The interpreter's `history` dictionary for a reward history. */
  function HistoryMap(h: History<real>): (m: map<int, seq<Entry>>)
    ensures forall i :: 0 <= i < |h| ==> ArmEntries(m, i) == AsEntries(h[i])
  {
    map i | 0 <= i < |h| :: AsEntries(h[i])
  }

  /** Flattening goes entry by entry: the flattening of two histories one
    * after the other is the two flattenings one after the other. */
  lemma {:induction false} FlattenOnceAppend(a: seq<Entry>, b: seq<Entry>)
    ensures FlattenOnce(a + b) == FlattenOnce(a) + FlattenOnce(b)
    decreases |b|
  {
    if b == [] {
      assert a + b == a;
    } else {
      var n := |b|;
      var last := b[n - 1];
      var tail := if last.Items? then last.items else [last];
      assert (a + b)[..|a + b| - 1] == a + b[..n - 1];
      assert FlattenOnce(a + b) == FlattenOnce(a + b[..n - 1]) + tail;
      assert FlattenOnce(b) == FlattenOnce(b[..n - 1]) + tail;
      FlattenOnceAppend(a, b[..n - 1]);
    }
  }

  /** Flattening is one level deep: a list's items are kept as they are,
    * nested lists included, and a history without lists is unchanged. */
  lemma {:induction false} FlattenOnceOneLevel(items: seq<Entry>, hist: seq<Entry>)
    ensures FlattenOnce([Items(items)]) == items
    ensures (forall j :: 0 <= j < |hist| ==> !hist[j].Items?) ==> FlattenOnce(hist) == hist
  {
    assert [Items(items)][..0] == [];
    if (forall j :: 0 <= j < |hist| ==> !hist[j].Items?) && hist != [] {
      var n := |hist|;
      FlattenOnceOneLevel(items, hist[..n - 1]);
      assert hist == hist[..n - 1] + [hist[n - 1]];
    }
  }

  /** The fallback score of any history: when it is led by a list or tuple
    * the mean is over the numbers of its one-level flattening and the count
    * is the length of that flattening; otherwise both are taken from the
    * history as it is. */
  lemma FlattenedScore(hist: seq<Entry>, t: nat, bonus: (nat, nat) -> real)
    ensures var flat := if hist != [] && hist[0].Items? then FlattenOnce(hist) else hist;
            FallbackScore(hist, t, bonus)
              == if Numbers(flat) == [] then Infinite else Finite(Mean(Numbers(flat)) + bonus(t, |flat|))
  {
  }

  /** A history led by a list is flattened one level: two numbers inside a
    * list score their mean with a count of two. */
  lemma FlattenLeadingList(t: nat, bonus: (nat, nat) -> real)
    ensures FallbackScore([Items([Num(1.0), Num(3.0)])], t, bonus) == Finite(2.0 + bonus(t, 2))
  {
    var hist := [Items([Num(1.0), Num(3.0)])];
    assert hist[..0] == [];
    assert FlattenOnce(hist) == [Num(1.0), Num(3.0)];
    var flat := [Num(1.0), Num(3.0)];
    assert flat[..1] == [Num(1.0)];
    assert [Num(1.0)][..0] == [];
    assert Numbers(flat) == [1.0, 3.0];
    assert [1.0, 3.0][..1] == [1.0];
    assert [1.0][..0] == [];
    assert Sum([1.0, 3.0]) == 4.0;
  }

  /** A history led by a number is not flattened: a later list counts
    * towards the bonus but not towards the mean. */
  lemma NoFlattenAfterNumber(t: nat, bonus: (nat, nat) -> real)
    ensures FallbackScore([Num(1.0), Items([Num(5.0)])], t, bonus) == Finite(1.0 + bonus(t, 2))
  {
    var hist := [Num(1.0), Items([Num(5.0)])];
    assert hist[..1] == [Num(1.0)];
    assert [Num(1.0)][..0] == [];
    assert Numbers(hist) == [1.0];
    assert [1.0][..0] == [];
    assert Sum([1.0]) == 1.0;
  }

  /** The code fence. */
  const Fence: string := "```"

  /** The first part containing `pat`. */
  function FirstWith(parts: seq<string>, pat: string): (r: Option<nat>)
    ensures r.Some? ==> r.value < |parts| && Contains(parts[r.value], pat)
    ensures r.Some? ==> forall j :: 0 <= j < r.value ==> !Contains(parts[j], pat)
    ensures r.None? ==> forall j :: 0 <= j < |parts| ==> !Contains(parts[j], pat)
  {
    if parts == [] then None
    else if Contains(parts[0], pat) then Some(0)
    else match FirstWith(parts[1..], pat)
      case None => None
      case Some(i) => Some(i + 1)
  }

  /** The code cut out of the model's reply (an absent reply reads as
    * empty): without a fence, the stripped reply; with one, the first
    * fenced part mentioning `python` with that word taken out once, or
    * else the part after the first fence, stripped. A reply with a fence
    * always splits into two parts or more, so the code is always stripped
    * and never longer than the reply. */
  function ExtractCode(reply: Option<string>): (c: string)
    ensures |c| <= |reply.GetOr("")|
    ensures c == [] || (!IsSpace(c[0]) && !IsSpace(c[|c| - 1]))
  {
    var raw := reply.GetOr("");
    if Contains(raw, Fence) then
      var parts := Split(raw, Fence);
      match FirstWith(parts, "python")
      case Some(i) =>
        var code := ReplaceFirst(parts[i], "python", "");
        assert |code| <= |parts[i]| by {
          if Contains(parts[i], "python") {
            var j: nat :| OccursAt(parts[i], "python", j) && code == parts[i][..j] + "" + parts[i][j + 6..];
          }
        }
        Strip(code)
      case None => if |parts| > 1 then Strip(parts[1]) else raw
    else Strip(raw)
  }

  /** A slice of a string without `pat` holds no `pat` either. */
  lemma SliceLacks(s: string, pat: string, i: nat, j: nat)
    requires i <= j <= |s| && !Contains(s, pat)
    ensures !Contains(s[i..j], pat)
  {
    forall p | 0 <= p <= j - i ensures !OccursAt(s[i..j], pat, p) {
      if OccursAt(s[i..j], pat, p) {
        var w := s[i..j][p..p + |pat|];
        assert forall q :: 0 <= q < |pat| ==> w[q] == s[i + p + q];
        assert s[i..j][p..p + |pat|] == s[i + p..i + p + |pat|];
        assert OccursAt(s, pat, i + p);
      }
    }
  }

  /** Without a fence the reply is only stripped, and extracting again
    * changes nothing. */
  lemma ExtractUnfenced(reply: string)
    requires !Contains(reply, Fence)
    ensures ExtractCode(Some(reply)) == Strip(reply)
    ensures ExtractCode(Some(ExtractCode(Some(reply)))) == ExtractCode(Some(reply))
  {
    var r := Strip(reply);
    var i, j :| 0 <= i <= j <= |reply| && r == reply[i..j];
    SliceLacks(reply, Fence, i, j);
    StripIdempotent(reply);
  }

  /** Nothing in a string without backticks can be part of a fence. */
  predicate NoBackticks(s: string) {
    forall k :: 0 <= k < |s| ==> s[k] != '`'
  }

  /** Wrapping a fence-free string in backtick-free text adds no fence. */
  lemma FramedLacksFence(pre: string, c: string, post: string)
    requires NoBackticks(pre) && NoBackticks(post) && !Contains(c, Fence)
    ensures !Contains(pre + c + post, Fence)
  {
    var s := pre + c + post;
    forall p | 0 <= p <= |s| ensures !OccursAt(s, Fence, p) {
      if OccursAt(s, Fence, p) {
        assert s[p..p + 3] == Fence;
        assert s[p] == '`' && s[p + 1] == '`' && s[p + 2] == '`';
        if |pre| <= p && p + 2 < |pre| + |c| {
          assert s[p..p + 3] == c[p - |pre|..p - |pre| + 3];
          assert OccursAt(c, Fence, p - |pre|);
        }
      }
    }
  }

  /** A fence-free text that does not end in a backtick, followed by a
    * fence, has its first fence right after the text. */
  lemma ClosingFence(body: string, rest: string)
    requires !Contains(body, Fence) && (body == [] || body[|body| - 1] != '`')
    ensures Find(body + Fence + rest, Fence) == Some(|body|)
  {
    var s := body + Fence + rest;
    forall p | 0 <= p < |body| ensures !OccursAt(s, Fence, p) {
      if p + 3 <= |body| {
        assert s[p..p + 3] == body[p..p + 3];
        assert !OccursAt(body, Fence, p);
      } else {
        assert s[|body| - 1] == body[|body| - 1];
      }
    }
    assert s[|body|..|body| + 3] == Fence;
    assert OccursAt(s, Fence, |body|);
  }

  /** Splitting at the first fence. */
  lemma SplitAtFirst(s: string, i: nat)
    requires Find(s, Fence) == Some(i)
    ensures i + 3 <= |s| && Split(s, Fence) == [s[..i]] + Split(s[i + 3..], Fence)
  {
  }

  /** The empty string is one empty part. */
  lemma SplitEmpty()
    ensures Split("", Fence) == [""]
  {
    assert !OccursAt("", Fence, 0);
  }

  /** A string whose only fence closes it splits into the text before the
    * fence and an empty part. */
  lemma SplitAtEnd(rest: string, n: nat)
    requires |rest| == n + 3 && Find(rest, Fence) == Some(n)
    ensures Split(rest, Fence) == [rest[..n], ""]
  {
    SplitAtFirst(rest, n);
    assert rest[n + 3..] == "";
    SplitEmpty();
  }

  /** The body and its closing fence split into the body and an empty
    * part. */
  lemma SplitClosing(body: string)
    requires !Contains(body, Fence) && (body == [] || body[|body| - 1] != '`')
    ensures Split(body + Fence, Fence) == [body, ""]
  {
    var rest := body + Fence;
    assert Find(rest, Fence) == Some(|body|) by {
      ClosingFence(body, "");
      assert body + Fence + "" == rest;
    }
    SplitAtEnd(rest, |body|);
    assert rest[..|body|] == body;
  }

  /** A string that opens with a fence splits into an empty part and the
    * parts of the rest. */
  lemma OpeningFence(x: string)
    ensures Split(Fence + x, Fence) == [""] + Split(x, Fence)
  {
    var s := Fence + x;
    assert s[..3] == Fence;
    assert OccursAt(s, Fence, 0);
    assert Find(s, Fence) == Some(0);
    assert s[..0] == "";
    assert s[3..] == x;
  }

  /** An opening fence adds an empty first part. */
  lemma SplitThrough(s: string, x: string, body: string)
    requires s == Fence + x && Split(x, Fence) == [body, ""]
    ensures Split(s, Fence) == ["", body, ""]
  {
    OpeningFence(x);
  }

  /** A fence-free body that does not end in a backtick, fenced on both
    * sides, splits into an empty part, the body and an empty part. */
  lemma SplitFenced(body: string)
    requires !Contains(body, Fence) && (body == [] || body[|body| - 1] != '`')
    ensures Split(Fence + body + Fence, Fence) == ["", body, ""]
  {
    var x := body + Fence;
    var s := Fence + body + Fence;
    assert s == Fence + x;
    SplitClosing(body);
    SplitThrough(s, x, body);
  }

  /** Stripping a newline off each side of a string that neither starts nor
    * ends in whitespace gives it back. */
  lemma StripNewlines(c: string)
    requires c == [] || (!IsSpace(c[0]) && !IsSpace(c[|c| - 1]))
    ensures Strip("\n" + c + "\n") == c
  {
    var s := "\n" + c + "\n";
    if c == [] {
      assert s == "\n\n";
      assert Leading(s) == 2;
    } else {
      assert s[1..] == c + "\n";
      assert Leading(s) == 1 + Leading(c + "\n");
      assert Leading(s) == 1;
      var rest := s[1..];
      assert rest[..|rest| - 1] == c;
      assert Trailing(rest) == 1 + Trailing(c);
      assert Trailing(rest) == 1;
    }
  }

  /** What may be fenced and read back: code without fences that neither
    * starts nor ends in whitespace. */
  predicate Fenceable(c: string) {
    !Contains(c, Fence) && (c == [] || (!IsSpace(c[0]) && !IsSpace(c[|c| - 1])))
  }

  /** With a fence, the first part mentioning `python` is the code. */
  lemma ExtractTagged(raw: string, i: nat)
    requires Contains(raw, Fence) && FirstWith(Split(raw, Fence), "python") == Some(i)
    ensures ExtractCode(Some(raw)) == Strip(ReplaceFirst(Split(raw, Fence)[i], "python", ""))
  {
  }

  /** With a fence and no part mentioning `python`, the part after the
    * first fence is the code. */
  lemma ExtractUntagged(raw: string)
    requires Contains(raw, Fence) && FirstWith(Split(raw, Fence), "python") == None
    ensures ExtractCode(Some(raw)) == Strip(Split(raw, Fence)[1])
  {
  }

  /** Taking the language tag out of a tagged body leaves the code between
    * its newlines. */
  lemma DropTag(c: string)
    ensures ReplaceFirst("python\n" + c + "\n", "python", "") == "\n" + c + "\n"
  {
    var body := "python\n" + c + "\n";
    assert body[..6] == "python";
    assert OccursAt(body, "python", 0);
    assert Find(body, "python") == Some(0);
    assert body[..0] == "" && body[6..] == "\n" + c + "\n";
  }

  /** Newlines around a text without `python` add no `python`. */
  lemma NewlinesLackTag(c: string)
    requires !Contains(c, "python")
    ensures !Contains("\n" + c + "\n", "python")
  {
    var body := "\n" + c + "\n";
    forall p | 0 <= p <= |body| ensures !OccursAt(body, "python", p) {
      if p == 0 {
        assert body[0] == '\n';
      } else if p + 6 <= |c| + 1 {
        NewlineShift(c, p);
        assert !OccursAt(c, "python", p - 1);
      } else if p + 6 <= |body| {
        assert body[p..p + 6][5] == body[|body| - 1] == '\n';
      }
    }
  }

  /** Six characters of `c` framed by newlines, read one place later. */
  lemma NewlineShift(c: string, p: nat)
    requires 1 <= p && p + 6 <= |c| + 1
    ensures ("\n" + c + "\n")[p..p + 6] == c[p - 1..p + 5]
  {
    var body := "\n" + c + "\n";
    var w, v := body[p..p + 6], c[p - 1..p + 5];
    forall k | 0 <= k < 6 ensures w[k] == v[k] {
      assert body[p + k] == c[p - 1 + k];
    }
  }

  /** A fenced block whose opening line is backtick-free splits into an
    * empty part, the block's body and an empty part. */
  lemma FramedSplit(pre: string, c: string)
    requires NoBackticks(pre) && !Contains(c, Fence)
    ensures Contains(Fence + pre + c + "\n" + Fence, Fence)
    ensures Split(Fence + pre + c + "\n" + Fence, Fence) == ["", pre + c + "\n", ""]
  {
    var body := pre + c + "\n";
    assert NoBackticks("\n");
    FramedLacksFence(pre, c, "\n");
    SplitFenced(body);
    var s := Fence + body + Fence;
    assert Fence + pre + c + "\n" + Fence == s;
    assert OccursAt(s, Fence, 0);
  }

  /** Code fenced as a python block is extracted unchanged. */
  lemma ExtractPythonBlock(c: string)
    requires Fenceable(c)
    ensures ExtractCode(Some(Fence + "python\n" + c + "\n" + Fence)) == c
  {
    var body := "python\n" + c + "\n";
    assert NoBackticks("python\n");
    FramedSplit("python\n", c);
    assert !Contains("", "python");
    assert body[..6] == "python";
    assert OccursAt(body, "python", 0);
    assert FirstWith(["", body, ""], "python") == Some(1);
    ExtractTagged(Fence + "python\n" + c + "\n" + Fence, 1);
    DropTag(c);
    StripNewlines(c);
  }

  /** Code fenced without a language tag, and not mentioning `python`, is
    * extracted unchanged. */
  lemma ExtractPlainBlock(c: string)
    requires Fenceable(c) && !Contains(c, "python")
    ensures ExtractCode(Some(Fence + "\n" + c + "\n" + Fence)) == c
  {
    var body := "\n" + c + "\n";
    assert NoBackticks("\n");
    FramedSplit("\n", c);
    assert !Contains("", "python");
    NewlinesLackTag(c);
    assert FirstWith(["", body, ""], "python") == None;
    ExtractUntagged(Fence + "\n" + c + "\n" + Fence);
    StripNewlines(c);
  }

  /** The text before the first fence is a part too: when it mentions
    * `python`, that text, less the word, is taken as the code and the
    * fenced code after it is ignored. */
  lemma ExtractFromProse(prose: string, rest: string)
    requires !Contains(prose, Fence) && Contains(prose, "python") && prose[|prose| - 1] != '`'
    ensures ExtractCode(Some(prose + Fence + rest)) == Strip(ReplaceFirst(prose, "python", ""))
  {
    var s := prose + Fence + rest;
    ClosingFence(prose, rest);
    assert s[..|prose|] == prose;
    assert s[|prose| + 3..] == rest;
    assert OccursAt(s, Fence, |prose|);
    assert Split(s, Fence) == [prose] + Split(rest, Fence);
  }

  /** `np.clip(a, lo, hi)`. */
  function Clip(a: int, lo: int, hi: int): (r: int)
    requires lo <= hi
    ensures lo <= r <= hi
    ensures lo <= a <= hi ==> r == a
    ensures a < lo ==> r == lo
    ensures a > hi ==> r == hi
  {
    if a < lo then lo else if a > hi then hi else a
  }

  /** What `int(choice)` gives after the interpreter ran the code. */
  datatype ChoiceValue = IntChoice(value: int) | NotInt

  /** One run of the code: it raised, or it ran and left a choice. The
    * interpreter's state persists between rounds, so a run is given the
    * round, the arms played so far and the reward history; together they
    * fix everything earlier runs could have stored. */
  datatype Outcome = Failed | Ran(choice: ChoiceValue)

  /** The arm proposed in round `t`: the interpreter's integer choice, or
    * the fallback rule's. */
  function Proposed(outcome: Outcome, history: History<real>, t: nat, k: nat, bonus: (nat, nat) -> real): (a: int)
    requires |history| == k && k > 0
    ensures outcome.Ran? && outcome.choice.IntChoice? ==> a == outcome.choice.value
    ensures !(outcome.Ran? && outcome.choice.IntChoice?) ==> 0 <= a < k && (t < k ==> a == t)
  {
    match outcome
    case Ran(IntChoice(v)) => v
    case _ => FallbackUcb(HistoryMap(history), t, k, bonus)
  }

  /** The arm played in round `t` of a play. */
  function InterpreterChoiceAt(exec: (string, nat, seq<int>, History<real>) -> Outcome, code: string, bonus: (nat, nat) -> real,
                               table: seq<seq<real>>, k: nat, actions: seq<int>, t: nat): (a: int)
    requires Rows(table, k) && |actions| <= |table| && InRange(actions, k) && t <= |actions| && k > 0
    ensures 0 <= a < k
  {
    var h := HistoryAt(table, k, actions, t);
    Clip(Proposed(exec(code, t, actions[..t], h), h, t, k, bonus), 0, k - 1)
  }

  /** `run_trial_with_interpreter`: the code is cut out of the reply once,
    * then each round runs it, falls back to UCB when needed, clips the arm
    * and logs its reward; the curves are measured against the same best
    * mean as the text-only strategy. */
  method RunTrialWithInterpreter(trial: PolicyTrial, nRounds: nat, reply: Option<string>,
                                 exec: (string, nat, seq<int>, History<real>) -> Outcome, bonus: (nat, nat) -> real)
    returns (c: Curves)
    requires PolicyShape(trial, nRounds)
    ensures |c.actions| == nRounds && InRange(c.actions, |trial.rewards[0]|)
    ensures forall t :: 0 <= t < nRounds ==>
              c.actions[t] == InterpreterChoiceAt(exec, ExtractCode(reply), bonus, trial.rewards, |trial.rewards[0]|, c.actions, t)
    ensures c == CalcCurves(c.actions, TableRewards(trial.rewards, |trial.rewards[0]|, c.actions),
                            BestMeanForCurves(TrialMeans(trial), trial.bestMean, trial.rewards))
  {
    var table := trial.rewards;
    var k := |table[0]|;
    var history: History<real> := NoRewards(k);
    var actions: seq<int> := [];
    var rewards: seq<real> := [];
    var code := ExtractCode(reply);
    for t := 0 to nRounds
      invariant |actions| == t && InRange(actions, k)
      invariant rewards == TableRewards(table, k, actions)
      invariant history == Replay(k, actions, rewards)
      invariant forall j :: 0 <= j < t ==> actions[j] == InterpreterChoiceAt(exec, code, bonus, table, k, actions, j)
    {
      assert actions[..t] == actions;
      var a := InterpreterRound(exec, code, bonus, table, k, actions, history);
      InterpreterStep(exec, code, bonus, table, k, actions, a);
      NoCodeExtend(table, k, actions, a);
      var r := table[t][a];
      history := Record(history, a, r);
      actions := actions + [a];
      rewards := rewards + [r];
    }
    var bestMean := BestMeanForCurves(TrialMeans(trial), trial.bestMean, table);
    c := CalcCurves(actions, rewards, bestMean);
  }

  /** One round of the loop: run the code on the round, the actions so far
    * and the history, fall back to UCB unless it yields an integer, and
    * clip the arm. */
  method InterpreterRound(exec: (string, nat, seq<int>, History<real>) -> Outcome, code: string, bonus: (nat, nat) -> real,
                          table: seq<seq<real>>, k: nat, actions: seq<int>, history: History<real>)
    returns (a: int)
    requires Rows(table, k) && |actions| < |table| && InRange(actions, k) && k > 0
    requires history == HistoryAt(table, k, actions, |actions|)
    ensures 0 <= a < k
    ensures a == InterpreterChoiceAt(exec, code, bonus, table, k, actions, |actions|)
  {
    var t := |actions|;
    assert actions[..t] == actions;
    var outcome := exec(code, t, actions, history);
    match outcome {
      case Ran(IntChoice(v)) => a := v;
      case _ => a := FallbackUcb(HistoryMap(history), t, k, bonus);
    }
    a := Clip(a, 0, k - 1);
  }

  /** One more round keeps every earlier round's choice. */
  lemma InterpreterStep(exec: (string, nat, seq<int>, History<real>) -> Outcome, code: string, bonus: (nat, nat) -> real,
                        table: seq<seq<real>>, k: nat, actions: seq<int>, a: int)
    requires Rows(table, k) && |actions| < |table| && InRange(actions, k) && 0 <= a < k
    requires forall j :: 0 <= j < |actions| ==> actions[j] == InterpreterChoiceAt(exec, code, bonus, table, k, actions, j)
    requires a == InterpreterChoiceAt(exec, code, bonus, table, k, actions, |actions|)
    ensures InRange(actions + [a], k)
    ensures forall j :: 0 <= j <= |actions| ==>
              (actions + [a])[j] == InterpreterChoiceAt(exec, code, bonus, table, k, actions + [a], j)
  {
    NoCodeExtend(table, k, actions, a);
    InterpreterChoicesAgree(exec, code, bonus, table, k, actions, a);
  }

  lemma InterpreterChoicesAgree(exec: (string, nat, seq<int>, History<real>) -> Outcome, code: string, bonus: (nat, nat) -> real,
                                table: seq<seq<real>>, k: nat, actions: seq<int>, a: int)
    requires Rows(table, k) && |actions| < |table| && InRange(actions, k) && InRange(actions + [a], k) && k > 0
    requires forall j :: 0 <= j <= |actions| ==> HistoryAt(table, k, actions + [a], j) == HistoryAt(table, k, actions, j)
    requires forall j :: 0 <= j < |actions| ==> actions[j] == InterpreterChoiceAt(exec, code, bonus, table, k, actions, j)
    requires a == InterpreterChoiceAt(exec, code, bonus, table, k, actions, |actions|)
    ensures forall j :: 0 <= j <= |actions| ==>
              (actions + [a])[j] == InterpreterChoiceAt(exec, code, bonus, table, k, actions + [a], j)
  {
    var ext := actions + [a];
    forall j | 0 <= j <= |actions| ensures ext[j] == InterpreterChoiceAt(exec, code, bonus, table, k, ext, j) {
      ExtendedChoice(exec, code, bonus, table, k, actions, a, j);
      if j < |actions| {
        assert ext[j] == actions[j];
      }
    }
  }

  /** Appending an arm leaves the choice of an earlier round alone when the
    * history before that round is unchanged. */
  lemma ExtendedChoice(exec: (string, nat, seq<int>, History<real>) -> Outcome, code: string, bonus: (nat, nat) -> real,
                       table: seq<seq<real>>, k: nat, actions: seq<int>, a: int, j: nat)
    requires Rows(table, k) && |actions| < |table| && InRange(actions, k) && InRange(actions + [a], k) && k > 0
    requires j <= |actions| && HistoryAt(table, k, actions + [a], j) == HistoryAt(table, k, actions, j)
    ensures InterpreterChoiceAt(exec, code, bonus, table, k, actions + [a], j)
            == InterpreterChoiceAt(exec, code, bonus, table, k, actions, j)
  {
    assert (actions + [a])[..j] == actions[..j];
  }

  /** In the first `n_arms` rounds a run that raised, or left a choice that
    * is not an integer, explores arm `t`. */
  lemma FailedRunExplores(exec: (string, nat, seq<int>, History<real>) -> Outcome, code: string, bonus: (nat, nat) -> real,
                          table: seq<seq<real>>, k: nat, actions: seq<int>, t: nat)
    requires Rows(table, k) && |actions| <= |table| && InRange(actions, k) && t <= |actions| && 0 < k
    requires t < k
    requires var o := exec(code, t, actions[..t], HistoryAt(table, k, actions, t));
             !(o.Ran? && o.choice.IntChoice?)
    ensures InterpreterChoiceAt(exec, code, bonus, table, k, actions, t) == t
  {
  }
}
