/** What fingerprints tell apart, and how a round stands in the history. */
module SessionPrints {
  import opened GoStrings
  import A = StreamAccumulator
  import opened Session

  /** Texts cut at a colon and a semicolon, neither of which the parts before them hold, have the same parts. */
  lemma CutsAgree(n1: string, d1: string, r1: string, n2: string, d2: string, r2: string)
    requires ':' !in n1 && ':' !in n2 && ';' !in d1 && ';' !in d2
    requires n1 + (":" + (d1 + (";" + r1))) == n2 + (":" + (d2 + (";" + r2)))
    ensures n1 == n2 && d1 == d2 && r1 == r2
  {
    CutAgrees(':', n1, d1 + (";" + r1), n2, d2 + (";" + r2));
    CutAgrees(';', d1, r1, d2, r2);
  }

  lemma CutAgrees(c: char, a1: string, b1: string, a2: string, b2: string)
    requires c !in a1 && c !in a2 && a1 + ([c] + b1) == a2 + ([c] + b2)
    ensures a1 == a2 && b1 == b2
  {
    var s := a1 + ([c] + b1);
    CutAt(c, a1, b1);
    CutAt(c, a2, b2);
    assert a1 == s[..|a1|] && a2 == s[..|a2|] && b1 == s[|a1| + 1..] && b2 == s[|a2| + 1..];
  }

  /** Where a character first stands. */
  function Place(c: char, s: string): nat { if s == "" || s[0] == c then 0 else 1 + Place(c, s[1..]) }

  lemma {:induction false} CutAt(c: char, a: string, b: string)
    requires c !in a
    ensures Place(c, a + ([c] + b)) == |a|
  {
    if a != "" {
      CutAt(c, a[1..], b);
      assert (a + ([c] + b))[1..] == a[1..] + ([c] + b);
    }
  }

  /** A fingerprint, from the front. */
  lemma {:induction false} PrintFront(w: World, calls: seq<Call>)
    requires calls != []
    ensures
      var c := calls[0];
      CallsPrint(w, calls) == TrimSpace(c.name) + (":" + (w.digest(c.arguments) + (";" + CallsPrint(w, calls[1..]))))
  {
    hide TrimSpace;
    var n := |calls| - 1;
    var c := calls[0];
    var front := TrimSpace(c.name) + ":" + w.digest(c.arguments) + ";";
    if n == 0 {
      assert calls[..0] == [] && calls[1..] == [] && "" + Mark(w, c.name, c.arguments) == front;
      assert front == TrimSpace(c.name) + (":" + (w.digest(c.arguments) + (";" + "")));
    } else {
      PrintFront(w, calls[..n]);
      assert calls[..n][1..] == calls[1..][..n - 1] && calls[1..][n - 1] == calls[n];
      var mid, last := CallsPrint(w, calls[1..][..n - 1]), Mark(w, calls[n].name, calls[n].arguments);
      assert CallsPrint(w, calls[1..]) == mid + last;
      Regrouped(TrimSpace(c.name), w.digest(c.arguments), mid, last);
    }
  }

  lemma Regrouped(name: string, digest: string, mid: string, last: string)
    ensures name + (":" + (digest + (";" + mid))) + last == name + (":" + (digest + (";" + (mid + last))))
  {
  }

  /** Two calls that the loop detector cannot tell apart: same trimmed name, same digest of the arguments. */
  predicate Alike(w: World, a: Call, b: Call) {
    TrimSpace(a.name) == TrimSpace(b.name) && w.digest(a.arguments) == w.digest(b.arguments)
  }

  /** Names without a colon, and digests without a semicolon; those of SHA-256 in hexadecimal have none. */
  ghost predicate Separable(w: World, calls: seq<Call>) {
    forall k :: 0 <= k < |calls| ==> ':' !in TrimSpace(calls[k].name) && ';' !in w.digest(calls[k].arguments)
  }

  /** Fingerprints agree exactly if the calls do, one by one and in order: no two lists are confused by running together. */
  lemma {:induction false} PrintsAgreeExactly(w: World, a: seq<Call>, b: seq<Call>)
    requires Separable(w, a) && Separable(w, b)
    ensures CallsPrint(w, a) == CallsPrint(w, b) <==> |a| == |b| && forall k :: 0 <= k < |a| ==> Alike(w, a[k], b[k])
  {
    hide TrimSpace, CallsPrint;
    if a != [] && b != [] {
      PrintFront(w, a);
      PrintFront(w, b);
      PrintsAgreeExactly(w, a[1..], b[1..]);
      if CallsPrint(w, a) == CallsPrint(w, b) {
        CutsAgree(TrimSpace(a[0].name), w.digest(a[0].arguments), CallsPrint(w, a[1..]),
                  TrimSpace(b[0].name), w.digest(b[0].arguments), CallsPrint(w, b[1..]));
        assert forall k :: 1 <= k < |a| ==> a[k] == a[1..][k - 1] && b[k] == b[1..][k - 1];
      }
      if |a| == |b| && forall k :: 0 <= k < |a| ==> Alike(w, a[k], b[k]) {
        assert forall k :: 0 <= k < |a| - 1 ==> a[1..][k] == a[k + 1] && b[1..][k] == b[k + 1];
        assert Alike(w, a[0], b[0]);
      }
    } else {
      assert CallsPrint(w, a) == "" <==> a == [];
    }
  }

  /** A text contains another exactly if it is that one with something, or nothing, on either side. */
  lemma ContainsExactly(s: string, t: string)
    ensures Contains(s, t) <==> exists a: string, b: string :: s == a + t + b
  {
    if Contains(s, t) {
      var i :| 0 <= i <= |s| && t <= s[i..];
      assert s == s[..i] + t + s[i + |t|..];
    }
    if a: string, b: string :| s == a + t + b {
      assert s[|a|..] == t + b;
    }
  }

  /** A call counts as malformed exactly if it failed and says so in so many words. */
  lemma MalformedSaysSo(r: Result)
    ensures IsMalformed(r) <==> r.isError && exists a: string, b: string :: r.full == a + "invalid tool arguments JSON" + b
  {
    ContainsExactly(r.full, "invalid tool arguments JSON");
  }

  lemma {:induction false} ToolTurnsAre(results: seq<Result>, k: nat)
    ensures |ToolTurns(results)| == |results|
    ensures k < |results| ==>
      ToolTurns(results)[k] == Tool(results[k].callId, results[k].name, results[k].output, results[k].isError)
  {
    if results != [] {
      ToolTurnsAre(results[..|results| - 1], k);
    }
  }

  lemma {:induction false} SteeringTurnsAre(messages: seq<string>, k: nat)
    ensures |SteeringTurns(messages)| == |messages|
    ensures k < |messages| ==> SteeringTurns(messages)[k] == Steering(messages[k])
  {
    if messages != [] {
      SteeringTurnsAre(messages[..|messages| - 1], k);
    }
  }

  predicate IsWarning(t: Turn) {
    t == Steering("Loop detection: you are repeating the same tool calls. Stop and change approach.")
  }

  /** A round in the history: the reply with its calls, the loop warning if there was one, the results in order, the steering. */
  lemma TurnsInOrder(r: Round, k: nat)
    ensures
      var ts, p, q := Turns(r), if r.warned then 2 else 1, |r.results|;
      && |ts| == p + q + |r.steered| && ts[0] == Assistant(r.text, r.calls) && (r.warned ==> IsWarning(ts[1]))
      && (k < q ==>
            ts[p + k] == Tool(r.results[k].callId, r.results[k].name, r.results[k].output, r.results[k].isError))
      && (k < |r.steered| ==> ts[p + q + k] == Steering(r.steered[k]))
  {
    hide ToolTurns, SteeringTurns, Opening, IsWarning;
    var a, b, c := Opening(r.text, r.calls, r.warned), ToolTurns(r.results), SteeringTurns(r.steered);
    OpeningIs(r.text, r.calls, r.warned);
    ToolTurnsAre(r.results, k);
    SteeringTurnsAre(r.steered, k);
    JoinedAt(a, b, c, 0);
    JoinedAt(a, b, c, 1);
    JoinedAt(a, b, c, k);
  }

  lemma OpeningIs(text: string, calls: seq<Call>, warned: bool)
    ensures var ts := Opening(text, calls, warned);
      && |ts| == (if warned then 2 else 1) && ts[0] == Assistant(text, calls) && (warned ==> IsWarning(ts[1]))
  {
  }

  lemma JoinedAt(a: seq<Turn>, b: seq<Turn>, c: seq<Turn>, k: nat)
    ensures var ts := a + b + c;
      && |ts| == |a| + |b| + |c| && (k < |a| ==> ts[k] == a[k])
      && (k < |b| ==> ts[|a| + k] == b[k]) && (k < |c| ==> ts[|a| + |b| + k] == c[k])
  {
  }
}
