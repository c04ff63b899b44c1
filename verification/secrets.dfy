// Secret masking on YAML trees. A tree drops comments, styles and anchors.
module Secrets {
  import opened Wrappers
  import Text

  datatype Kind = Unset | Document | Sequence | Mapping | Scalar | Alias

  // A mapping lists its keys and values in turn.
  datatype Tree = Tree(kind: Kind, tag: string, value: string, content: seq<Tree>)

  const PAT_TOKEN := "pat_token"
  const MASKED := Tree(Scalar, "!!str", "********", [])

  function Redact(t: Tree): Tree
    decreases t, 0
  {
    t.(content := if t.kind == Mapping then RedactPairs(t.content) else RedactAll(t.content))
  }

  function RedactAll(ts: seq<Tree>): (r: seq<Tree>)
    ensures |r| == |ts|
    decreases ts, 1
  {
    if ts == [] then [] else [Redact(ts[0])] + RedactAll(ts[1..])
  }

  function RedactPairs(ts: seq<Tree>): (r: seq<Tree>)
    ensures |r| == |ts|
    decreases ts, 1
  {
    if |ts| < 2 then ts else [ts[0], RedactValue(ts[0].value, ts[1])] + RedactPairs(ts[2..])
  }

  function RedactValue(key: string, value: Tree): Tree
    decreases value, 1
  {
    if key == PAT_TOKEN then MASKED else Redact(value)
  }

  predicate IsStar(c: char) {
    c == '*'
  }

  // What a draft shows when its author left the secret alone.
  predicate IsMask(value: string) {
    value == "" || Text.Trim(value, IsStar) == ""
  }

  // The value of the last pair among the first n items that has the key.
  function FindUpTo(ts: seq<Tree>, key: string, n: nat): Option<Tree>
    requires n <= |ts| && n % 2 == 0
  {
    if n == 0 then None
    else if ts[n - 2].value == key then Some(ts[n - 1])
    else FindUpTo(ts, key, n - 2)
  }

  function Find(ts: seq<Tree>, key: string): Option<Tree> {
    FindUpTo(ts, key, |ts| - |ts| % 2)
  }

  function Merge(draft: Tree, current: Tree): Tree
    decreases draft, 0
  {
    if draft.kind != current.kind then draft
    else if draft.kind == Mapping then draft.(content := MergePairs(draft.content, current.content))
    else draft.(content := MergeAll(draft.content, current.content))
  }

  function MergeAll(drafts: seq<Tree>, currents: seq<Tree>): (r: seq<Tree>)
    ensures |r| == |drafts|
    decreases drafts, 1
  {
    if drafts == [] || currents == [] then drafts
    else [Merge(drafts[0], currents[0])] + MergeAll(drafts[1..], currents[1..])
  }

  function MergePairs(drafts: seq<Tree>, currents: seq<Tree>): (r: seq<Tree>)
    ensures |r| == |drafts|
    decreases drafts, 1
  {
    if |drafts| < 2 then drafts
    else [drafts[0], MergeValue(drafts[0].value, drafts[1], Find(currents, drafts[0].value))] +
         MergePairs(drafts[2..], currents)
  }

  function MergeValue(key: string, value: Tree, found: Option<Tree>): Tree
    decreases value, 1
  {
    if found.None? then value
    else if key == PAT_TOKEN && IsMask(value.value) then found.value
    else Merge(value, found.value)
  }

  // ---- Element by element ----

  lemma {:induction false} RedactAllAt(ts: seq<Tree>, i: nat)
    requires i < |ts|
    ensures RedactAll(ts)[i] == Redact(ts[i])
    decreases |ts|
  {
    if i > 0 {
      RedactAllAt(ts[1..], i - 1);
    }
  }

  function RedactedAt(ts: seq<Tree>, i: nat): Tree
    requires i < |ts|
  {
    if i % 2 == 0 then ts[i] else RedactValue(ts[i - 1].value, ts[i])
  }

  lemma {:induction false} RedactPairsAt(ts: seq<Tree>, i: nat)
    requires i < |ts|
    ensures RedactPairs(ts)[i] == RedactedAt(ts, i)
    decreases |ts|
  {
    if i >= 2 {
      RedactPairsAt(ts[2..], i - 2);
    }
  }

  lemma {:induction false} MergeAllAt(drafts: seq<Tree>, currents: seq<Tree>, i: nat)
    requires i < |drafts|
    ensures MergeAll(drafts, currents)[i] == if i < |currents| then Merge(drafts[i], currents[i]) else drafts[i]
    decreases |drafts|
  {
    if i > 0 && currents != [] {
      MergeAllAt(drafts[1..], currents[1..], i - 1);
    }
  }

  function MergedAt(drafts: seq<Tree>, currents: seq<Tree>, i: nat): Tree
    requires i < |drafts|
  {
    if i % 2 == 0 then drafts[i] else MergeValue(drafts[i - 1].value, drafts[i], Find(currents, drafts[i - 1].value))
  }

  lemma {:induction false} MergePairsAt(drafts: seq<Tree>, currents: seq<Tree>, i: nat)
    requires i < |drafts|
    ensures MergePairs(drafts, currents)[i] == MergedAt(drafts, currents, i)
    decreases |drafts|
  {
    if i >= 2 {
      MergePairsAt(drafts[2..], currents, i - 2);
    }
  }

  // ---- Distinct keys ----

  ghost predicate DistinctKeys(ts: seq<Tree>) {
    forall i, j :: 0 <= i < j < |ts| - 1 && i % 2 == 0 && j % 2 == 0 ==> ts[i].value != ts[j].value
  }

  // No mapping in the tree repeats a key. Trees inside keys do not matter.
  ghost predicate Distinct(t: Tree) {
    && (t.kind == Mapping ==> DistinctKeys(t.content))
    && (forall i :: 0 <= i < |t.content| && (t.kind == Mapping ==> i % 2 == 1) ==> Distinct(t.content[i]))
  }

  lemma {:induction false} FindsOwnValue(ts: seq<Tree>, i: nat, n: nat)
    requires DistinctKeys(ts) && i < n <= |ts| && i % 2 == 0 && n % 2 == 0
    ensures i + 1 < |ts| && FindUpTo(ts, ts[i].value, n) == Some(ts[i + 1])
  {
    if i < n - 2 {
      assert ts[i].value != ts[n - 2].value;
      FindsOwnValue(ts, i, n - 2);
    }
  }

  lemma {:induction false} FoundIsDistinct(ts: seq<Tree>, key: string, n: nat)
    requires n <= |ts| && n % 2 == 0 && forall i :: 0 <= i < |ts| && i % 2 == 1 ==> Distinct(ts[i])
    ensures FindUpTo(ts, key, n).Some? ==> Distinct(FindUpTo(ts, key, n).value)
    ensures FindUpTo(ts, key, n).Some? ==> FindUpTo(ts, key, n).value in ts
  {
    if n > 0 && ts[n - 2].value != key {
      FoundIsDistinct(ts, key, n - 2);
    }
  }

  lemma FindsValueAt(ts: seq<Tree>, i: nat)
    requires DistinctKeys(ts) && i < |ts| && i % 2 == 1
    ensures Find(ts, ts[i - 1].value) == Some(ts[i])
  {
    FindsOwnValue(ts, i - 1, |ts| - |ts| % 2);
  }

  lemma MaskedIsMask()
    ensures IsMask(MASKED.value)
  {
    Text.TrimmedAway(MASKED.value, IsStar);
  }

  // ---- Merging undoes redaction ----

  // A config shown redacted and saved unedited is the config it was.
  lemma {:induction false} RoundTrip(t: Tree)
    requires Distinct(t)
    ensures Merge(Redact(t), t) == t
    decreases t
  {
    forall i | 0 <= i < |t.content| ensures Merge(Redact(t), t).content[i] == t.content[i] {
      if t.kind == Mapping && i % 2 == 0 {
        RoundTripKey(t, i);
      } else {
        RoundTrip(t.content[i]);
        if t.kind == Mapping {
          RoundTripMapped(t, i);
        } else {
          RoundTripItem(t, i);
        }
      }
    }
    assert Merge(Redact(t), t).content == t.content;
  }

  lemma RoundTripKey(t: Tree, i: nat)
    requires t.kind == Mapping && i < |t.content| && i % 2 == 0
    ensures Merge(Redact(t), t).content[i] == t.content[i]
  {
    RedactPairsAt(t.content, i);
    MergePairsAt(Redact(t).content, t.content, i);
  }

  lemma RoundTripItem(t: Tree, i: nat)
    requires t.kind != Mapping && i < |t.content|
    requires Merge(Redact(t.content[i]), t.content[i]) == t.content[i]
    ensures Merge(Redact(t), t).content[i] == t.content[i]
  {
    RedactAllAt(t.content, i);
    MergeAllAt(Redact(t).content, t.content, i);
  }

  lemma RoundTripMapped(t: Tree, i: nat)
    requires t.kind == Mapping && DistinctKeys(t.content) && i < |t.content| && i % 2 == 1
    requires Merge(Redact(t.content[i]), t.content[i]) == t.content[i]
    ensures Merge(Redact(t), t).content[i] == t.content[i]
  {
    var rs, ts := RedactPairs(t.content), t.content;
    assert rs[i] == RedactValue(ts[i - 1].value, ts[i]) && rs[i - 1] == ts[i - 1] by {
      RedactPairsAt(ts, i);
      RedactPairsAt(ts, i - 1);
    }
    assert MergeValue(ts[i - 1].value, rs[i], Some(ts[i])) == ts[i] by {
      RoundTripValue(ts[i - 1].value, ts[i]);
    }
    RoundTripPair(ts, rs, i);
  }

  lemma RoundTripPair(ts: seq<Tree>, rs: seq<Tree>, i: nat)
    requires DistinctKeys(ts) && i < |ts| == |rs| && i % 2 == 1
    requires rs[i - 1] == ts[i - 1]
    requires MergeValue(ts[i - 1].value, rs[i], Some(ts[i])) == ts[i]
    ensures MergePairs(rs, ts)[i] == ts[i]
  {
    FindsValueAt(ts, i);
    MergePairsAt(rs, ts, i);
  }

  lemma RoundTripValue(key: string, value: Tree)
    requires Merge(Redact(value), value) == value
    ensures MergeValue(key, RedactValue(key, value), Some(value)) == value
  {
    MaskedIsMask();
  }

  // ---- What redaction hides, and nothing else ----

  // The trees differ in pat_token values only.
  ghost predicate AgreeOutsideSecrets(a: Tree, b: Tree)
    decreases a, 1
  {
    && a.kind == b.kind && a.tag == b.tag && a.value == b.value && |a.content| == |b.content|
    && forall i :: 0 <= i < |a.content| ==> AgreeAt(a, b, i)
  }

  ghost predicate AgreeAt(a: Tree, b: Tree, i: nat)
    requires i < |a.content| == |b.content|
    decreases a, 0
  {
    if a.kind != Mapping then AgreeOutsideSecrets(a.content[i], b.content[i])
    else if i % 2 == 0 then a.content[i] == b.content[i]
    else a.content[i - 1].value == PAT_TOKEN || AgreeOutsideSecrets(a.content[i], b.content[i])
  }

  ghost predicate Hidden(t: Tree) {
    forall i :: 0 <= i < |t.content| ==>
      if t.kind != Mapping then Hidden(t.content[i])
      else i % 2 == 1 ==>
        if t.content[i - 1].value == PAT_TOKEN then t.content[i] == MASKED else Hidden(t.content[i])
  }

  // Redaction masks every pat_token and changes nothing outside them.
  lemma {:induction false} RedactHides(t: Tree)
    ensures Hidden(Redact(t)) && AgreeOutsideSecrets(t, Redact(t))
    decreases t
  {
    var ts, rs := t.content, Redact(t).content;
    forall i | 0 <= i < |ts|
      ensures AgreeAt(t, Redact(t), i)
      ensures t.kind != Mapping ==> Hidden(rs[i])
      ensures t.kind == Mapping && i % 2 == 1 ==>
        if ts[i - 1].value == PAT_TOKEN then rs[i] == MASKED else Hidden(rs[i])
    {
      RedactHides(ts[i]);
      if t.kind != Mapping {
        RedactAllAt(ts, i);
      } else {
        RedactPairsAt(ts, i);
      }
    }
    forall i | 0 <= i < |ts| && t.kind == Mapping && i % 2 == 0 ensures rs[i] == ts[i] {
      RedactPairsAt(ts, i);
    }
  }

  predicate SameShape(a: Tree, b: Tree) {
    a.kind == b.kind && |a.content| == |b.content|
  }

  // Items in the same place look the same redacted exactly when they agree,
  // given that their keys are the same.
  ghost predicate ComparesAt(a: Tree, b: Tree, i: nat)
    requires SameShape(a, b) && i < |a.content|
  {
    (a.kind == Mapping && i % 2 == 1 ==> a.content[i - 1] == b.content[i - 1]) ==>
      (Redact(a).content[i] == Redact(b).content[i] <==> AgreeAt(a, b, i))
  }

  lemma ComparesBelow(a: Tree, b: Tree, i: nat)
    requires SameShape(a, b) && i < |a.content|
    requires Redact(a.content[i]) == Redact(b.content[i]) <==> AgreeOutsideSecrets(a.content[i], b.content[i])
    ensures ComparesAt(a, b, i)
  {
    if a.kind != Mapping {
      RedactAllAt(a.content, i);
      RedactAllAt(b.content, i);
    } else {
      RedactPairsAt(a.content, i);
      RedactPairsAt(b.content, i);
    }
  }

  lemma AgreeingLookSame(a: Tree, b: Tree)
    requires SameShape(a, b) && AgreeOutsideSecrets(a, b)
    requires forall i :: 0 <= i < |a.content| ==> ComparesAt(a, b, i)
    ensures Redact(a) == Redact(b)
  {
    forall i | 0 <= i < |a.content| ensures Redact(a).content[i] == Redact(b).content[i] {
      assert ComparesAt(a, b, i) && AgreeAt(a, b, i) && (i > 0 ==> AgreeAt(a, b, i - 1));
    }
    assert Redact(a).content == Redact(b).content;
  }

  lemma LookingSameAgree(a: Tree, b: Tree)
    requires SameShape(a, b) && Redact(a) == Redact(b)
    requires forall i :: 0 <= i < |a.content| ==> ComparesAt(a, b, i)
    ensures AgreeOutsideSecrets(a, b)
  {
    forall i | 0 <= i < |a.content| ensures AgreeAt(a, b, i) {
      if a.kind == Mapping && i % 2 == 1 {
        RedactPairsAt(a.content, i - 1);
        RedactPairsAt(b.content, i - 1);
        assert Redact(a).content[i - 1] == a.content[i - 1] && Redact(b).content[i - 1] == b.content[i - 1];
      }
      assert ComparesAt(a, b, i);
    }
  }

  // Two trees look the same redacted exactly when they agree outside secrets.
  lemma {:induction false} SameRedacted(a: Tree, b: Tree)
    ensures Redact(a) == Redact(b) <==> AgreeOutsideSecrets(a, b)
    decreases a
  {
    if SameShape(a, b) {
      forall i | 0 <= i < |a.content| ensures ComparesAt(a, b, i) {
        SameRedacted(a.content[i], b.content[i]);
        ComparesBelow(a, b, i);
      }
      if AgreeOutsideSecrets(a, b) {
        AgreeingLookSame(a, b);
      }
      if Redact(a) == Redact(b) {
        LookingSameAgree(a, b);
      }
    }
  }

  // What is shown in place of a token.
  lemma TokenIsShownAsStars(t: Tree, i: nat)
    requires t.kind == Mapping && i < |t.content| && i % 2 == 1 && t.content[i - 1].value == "pat_token"
    ensures Redact(t).content[i - 1] == t.content[i - 1]
    ensures Redact(t).content[i].value == "********" && Redact(t).content[i].content == []
  {
    RedactPairsAt(t.content, i - 1);
    RedactPairsAt(t.content, i);
  }

  lemma RedactIdempotent(t: Tree)
    ensures Redact(Redact(t)) == Redact(t)
  {
    RedactHides(t);
    SameRedacted(t, Redact(t));
  }

  // ---- Merging fills masks, and nothing else ----

  // Nothing but stars, or nothing at all.
  predicate AllStars(value: string) {
    forall k :: 0 <= k < |value| ==> value[k] == '*'
  }

  // What counts as left alone is exactly what shows no character of a token.
  lemma MaskIff(value: string)
    ensures IsMask(value) <==> AllStars(value)
  {
    Text.TrimmedAway(value, IsStar);
    assert forall k :: 0 <= k < |value| ==> (IsStar(value[k]) <==> value[k] == '*');
  }

  // `m` is `d` with only masked pat_token values replaced.
  ghost predicate OnlyMasksFilled(d: Tree, m: Tree)
    decreases d, 1
  {
    && d.kind == m.kind && d.tag == m.tag && d.value == m.value && |d.content| == |m.content|
    && forall i :: 0 <= i < |d.content| ==> FilledAt(d, m, i)
  }

  ghost predicate FilledAt(d: Tree, m: Tree, i: nat)
    requires i < |d.content| == |m.content|
    decreases d, 0
  {
    if d.kind != Mapping then OnlyMasksFilled(d.content[i], m.content[i])
    else if i % 2 == 0 then d.content[i] == m.content[i]
    else
      || (d.content[i - 1].value == PAT_TOKEN && AllStars(d.content[i].value))
      || OnlyMasksFilled(d.content[i], m.content[i])
  }

  lemma {:induction false} Unfilled(d: Tree)
    ensures OnlyMasksFilled(d, d)
    decreases d
  {
    forall i | 0 <= i < |d.content| ensures FilledAt(d, d, i) {
      Unfilled(d.content[i]);
    }
  }

  lemma {:induction false} MergeFillsMasks(d: Tree, c: Tree)
    ensures OnlyMasksFilled(d, Merge(d, c))
    decreases d
  {
    if d.kind != c.kind {
      Unfilled(d);
    } else {
      var m := Merge(d, c);
      forall i | 0 <= i < |d.content| ensures FilledAt(d, m, i) {
        Unfilled(d.content[i]);
        if d.kind != Mapping {
          MergeAllAt(d.content, c.content, i);
          if i < |c.content| {
            MergeFillsMasks(d.content[i], c.content[i]);
          }
        } else {
          MergePairsAt(d.content, c.content, i);
          if i % 2 == 1 {
            var found := Find(c.content, d.content[i - 1].value);
            MaskIff(d.content[i].value);
            if found.Some? {
              MergeFillsMasks(d.content[i], found.value);
            }
          }
        }
      }
    }
  }

  // A token with a character other than a star is one the author typed: it
  // survives the merge with whatever is there already.
  lemma TypedTokenSurvives(d: Tree, c: Tree, i: nat, k: nat)
    requires d.kind == Mapping && i < |d.content| && i % 2 == 1 && d.content[i - 1].value == "pat_token"
    requires k < |d.content[i].value| && d.content[i].value[k] != '*'
    ensures Merge(d, c).content[i].value == d.content[i].value
  {
    MergeFillsMasks(d, c);
    assert FilledAt(d, Merge(d, c), i);
    assert !AllStars(d.content[i].value);
    assert OnlyMasksFilled(d.content[i], Merge(d, c).content[i]);
  }

  // The value of the last pair with this key is at j.
  ghost predicate IsLastValue(ts: seq<Tree>, key: string, j: nat) {
    && j < |ts| && j % 2 == 1 && ts[j - 1].value == key
    && forall other :: j < other < |ts| && other % 2 == 1 ==> ts[other - 1].value != key
  }

  lemma {:induction false} LastIsFound(ts: seq<Tree>, key: string, j: nat, n: nat)
    requires IsLastValue(ts, key, j) && j < n <= |ts| && n % 2 == 0
    ensures FindUpTo(ts, key, n) == Some(ts[j])
  {
    var last: nat := n - 1;
    if last > j {
      assert last % 2 == 1 && ts[last - 1].value != key;
      LastIsFound(ts, key, j, n - 2);
    }
  }

  lemma {:induction false} NotFoundMeansNone(ts: seq<Tree>, key: string, n: nat)
    requires n <= |ts| && n % 2 == 0 && FindUpTo(ts, key, n) == None
    ensures forall j :: 0 <= j < n && j % 2 == 1 ==> ts[j - 1].value != key
  {
    if n > 0 {
      NotFoundMeansNone(ts, key, n - 2);
      forall j | 0 <= j < n && j % 2 == 1 ensures ts[j - 1].value != key {
        assert j < n - 2 || j == n - 1;
      }
    }
  }

  // A token that was left masked takes the value the config has for it.
  lemma MaskedTokenIsFilled(d: Tree, c: Tree, i: nat, j: nat)
    requires d.kind == c.kind == Mapping && i < |d.content| && i % 2 == 1 && d.content[i - 1].value == "pat_token"
    requires AllStars(d.content[i].value) && IsLastValue(c.content, "pat_token", j)
    ensures Merge(d, c).content[i] == c.content[j]
  {
    MergePairsAt(d.content, c.content, i);
    LastIsFound(c.content, "pat_token", j, |c.content| - |c.content| % 2);
    MaskIff(d.content[i].value);
  }

  // The same at every depth, and for what is no token: `m` has, item by item,
  // what belongs there.
  ghost predicate IsMerge(d: Tree, c: Tree, m: Tree)
    decreases d, 1
  {
    if d.kind != c.kind then m == d
    else
      && m.kind == d.kind && m.tag == d.tag && m.value == d.value && |m.content| == |d.content|
      && forall i :: 0 <= i < |d.content| ==> IsMergeAt(d, c, m, i)
  }

  ghost predicate IsMergeAt(d: Tree, c: Tree, m: Tree, i: nat)
    requires i < |d.content| == |m.content|
    decreases d, 0
  {
    var key := if i % 2 == 1 then d.content[i - 1].value else "";
    if d.kind != Mapping then
      if i < |c.content| then IsMerge(d.content[i], c.content[i], m.content[i]) else m.content[i] == d.content[i]
    else if i % 2 == 0 then m.content[i] == d.content[i]
    else
      && ((forall j :: 0 <= j < |c.content| ==> !IsLastValue(c.content, key, j)) ==> m.content[i] == d.content[i])
      && (forall j :: 0 <= j < |c.content| && IsLastValue(c.content, key, j) ==>
            if key == "pat_token" && AllStars(d.content[i].value) then m.content[i] == c.content[j]
            else IsMerge(d.content[i], c.content[j], m.content[i]))
  }

  lemma {:induction false} FoundIsLast(ts: seq<Tree>, key: string, n: nat) returns (j: nat)
    requires n <= |ts| && n % 2 == 0 && FindUpTo(ts, key, n).Some?
    requires forall other :: n <= other < |ts| && other % 2 == 1 ==> ts[other - 1].value != key
    ensures IsLastValue(ts, key, j) && FindUpTo(ts, key, n) == Some(ts[j])
  {
    if ts[n - 2].value == key {
      j := n - 1;
    } else {
      j := FoundIsLast(ts, key, n - 2);
    }
  }

  // What a mapping item merges with: the last value of its key, or nothing.
  lemma FoundIff(ts: seq<Tree>, key: string)
    ensures Find(ts, key).None? ==> forall j :: 0 <= j < |ts| ==> !IsLastValue(ts, key, j)
    ensures Find(ts, key).Some? ==> exists j :: 0 <= j < |ts| && IsLastValue(ts, key, j)
    ensures forall j :: 0 <= j < |ts| && IsLastValue(ts, key, j) ==> Find(ts, key) == Some(ts[j])
  {
    var n := |ts| - |ts| % 2;
    if Find(ts, key).None? {
      NotFoundMeansNone(ts, key, n);
    } else {
      var j := FoundIsLast(ts, key, n);
    }
    forall j | 0 <= j < |ts| && IsLastValue(ts, key, j) ensures Find(ts, key) == Some(ts[j]) {
      LastIsFound(ts, key, j, n);
    }
  }

  lemma {:induction false} MergeIsMerge(d: Tree, c: Tree)
    ensures IsMerge(d, c, Merge(d, c))
    decreases d
  {
    if d.kind == c.kind {
      var m := Merge(d, c);
      forall i | 0 <= i < |d.content| ensures IsMergeAt(d, c, m, i) {
        if d.kind != Mapping {
          MergeAllAt(d.content, c.content, i);
          if i < |c.content| {
            MergeIsMerge(d.content[i], c.content[i]);
          }
        } else {
          MergePairsAt(d.content, c.content, i);
          if i % 2 == 1 {
            var key, found := d.content[i - 1].value, Find(c.content, d.content[i - 1].value);
            FoundIff(c.content, key);
            MaskIff(d.content[i].value);
            if found.Some? {
              MergeIsMerge(d.content[i], found.value);
            }
          }
        }
      }
    }
  }

  // Nothing else is a merge of the two.
  lemma {:induction false} MergeIsUnique(d: Tree, c: Tree, m: Tree)
    requires IsMerge(d, c, m)
    ensures m == Merge(d, c)
    decreases d
  {
    if d.kind == c.kind {
      forall i | 0 <= i < |d.content| ensures m.content[i] == Merge(d, c).content[i] {
        assert IsMergeAt(d, c, m, i);
        if d.kind != Mapping {
          MergeAllAt(d.content, c.content, i);
          if i < |c.content| {
            MergeIsUnique(d.content[i], c.content[i], m.content[i]);
          }
        } else {
          MergePairsAt(d.content, c.content, i);
          if i % 2 == 1 {
            var key, found := d.content[i - 1].value, Find(c.content, d.content[i - 1].value);
            FoundIff(c.content, key);
            MaskIff(d.content[i].value);
            if found.Some? && !(key == "pat_token" && AllStars(d.content[i].value)) {
              MergeIsUnique(d.content[i], found.value, m.content[i]);
            }
          }
        }
      }
      assert m.content == Merge(d, c).content;
    }
  }

  lemma {:induction false} FilledAgrees(d: Tree, m: Tree)
    requires OnlyMasksFilled(d, m)
    ensures AgreeOutsideSecrets(d, m)
    decreases d
  {
    forall i | 0 <= i < |d.content| ensures AgreeAt(d, m, i) {
      assert FilledAt(d, m, i);
      if OnlyMasksFilled(d.content[i], m.content[i]) {
        FilledAgrees(d.content[i], m.content[i]);
      }
    }
  }

  // For all drafts and configs: the merge shows the same redacted tree.
  lemma RedactMerge(d: Tree, c: Tree)
    ensures Redact(Merge(d, c)) == Redact(d)
  {
    MergeFillsMasks(d, c);
    FilledAgrees(d, Merge(d, c));
    SameRedacted(d, Merge(d, c));
  }

  lemma {:induction false} SelfMerge(t: Tree)
    requires Distinct(t)
    ensures Merge(t, t) == t
    decreases t
  {
    forall i | 0 <= i < |t.content| ensures Merge(t, t).content[i] == t.content[i] {
      if t.kind != Mapping {
        MergeAllAt(t.content, t.content, i);
        SelfMerge(t.content[i]);
      } else {
        MergePairsAt(t.content, t.content, i);
        if i % 2 == 1 {
          FindsValueAt(t.content, i);
          SelfMerge(t.content[i]);
        }
      }
    }
    assert Merge(t, t).content == t.content;
  }

  // Merging the same config again changes nothing.
  lemma {:induction false} MergeIdempotent(d: Tree, c: Tree)
    requires Distinct(c)
    ensures Merge(Merge(d, c), c) == Merge(d, c)
    decreases d
  {
    if d.kind == c.kind {
      var ms, ds, cs := Merge(d, c).content, d.content, c.content;
      forall i | 0 <= i < |ds| ensures Merge(Merge(d, c), c).content[i] == ms[i] {
        if d.kind != Mapping {
          MergeAllAt(ds, cs, i);
          MergeAllAt(ms, cs, i);
          if i < |cs| {
            MergeIdempotent(ds[i], cs[i]);
          }
        } else if i % 2 == 0 {
          MergePairsAt(ds, cs, i);
          MergePairsAt(ms, cs, i);
        } else {
          var found := Find(cs, ds[i - 1].value);
          FoundIsDistinct(cs, ds[i - 1].value, |cs| - |cs| % 2);
          if found.Some? {
            MergeIdempotent(ds[i], found.value);
          }
          MergeValueTwice(ds[i - 1].value, ds[i], found);
          MergePairTwice(ds, cs, i);
        }
      }
      assert Merge(Merge(d, c), c).content == ms;
    }
  }

  lemma MergeValueTwice(key: string, value: Tree, found: Option<Tree>)
    requires found.Some? ==> Distinct(found.value)
    requires found.Some? ==> Merge(Merge(value, found.value), found.value) == Merge(value, found.value)
    ensures MergeValue(key, MergeValue(key, value, found), found) == MergeValue(key, value, found)
  {
    if found.Some? {
      SelfMerge(found.value);
      assert Merge(value, found.value).value == value.value;
    }
  }

  lemma MergePairTwice(ds: seq<Tree>, cs: seq<Tree>, i: nat)
    requires i < |ds| && i % 2 == 1
    requires var found := Find(cs, ds[i - 1].value);
      MergeValue(ds[i - 1].value, MergeValue(ds[i - 1].value, ds[i], found), found) == MergeValue(ds[i - 1].value, ds[i], found)
    ensures MergePairs(MergePairs(ds, cs), cs)[i] == MergePairs(ds, cs)[i]
  {
    MergePairsAt(ds, cs, i - 1);
    MergePairsAt(ds, cs, i);
    MergePairsAt(MergePairs(ds, cs), cs, i);
  }
}
