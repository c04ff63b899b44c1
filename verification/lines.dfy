// The line fallback: redaction and secret merging for a config that is not
// valid YAML, line by line.
module Lines {
  import opened Wrappers
  import opened Text

  const KEY := "pat_token:"
  const MASK := "********"

  function WithValue(line: string, i: nat, value: string): string
    requires i <= |line|
  {
    line[..i] + KEY + " " + value
  }

  function RedactLine(line: string): string {
    match Index(line, KEY)
    case None => line
    case Some(i) => WithValue(line, i, MASK)
  }

  // The trimmed text after the key, if the line has the key.
  function Field(line: string): Option<string> {
    match Index(line, KEY)
    case None => None
    case Some(i) => Some(TrimSpace(line[i + |KEY|..]))
  }

  predicate IsMaskChar(c: char) {
    c == '*' || c == '"' || c == '\''
  }

  predicate IsMask(value: string) {
    value == "" || Trim(value, IsMaskChar) == ""
  }

  // The k-th key line takes the k-th secret, if it is masked and there is one.
  function MergeLine(line: string, secrets: seq<string>, k: nat): string {
    match Index(line, KEY)
    case None => line
    case Some(i) =>
      if IsMask(Field(line).value) && k < |secrets| then WithValue(line, i, secrets[k]) else line
  }

  function Fields(lines: seq<string>): seq<Option<string>> {
    seq(|lines|, i requires 0 <= i < |lines| => Field(lines[i]))
  }

  // How many of the first n are there, and which.
  function Count(fields: seq<Option<string>>, n: nat): nat
    requires n <= |fields|
  {
    if n == 0 then 0 else Count(fields, n - 1) + if fields[n - 1].Some? then 1 else 0
  }

  function Present(fields: seq<Option<string>>, n: nat): (r: seq<string>)
    requires n <= |fields|
    ensures |r| == Count(fields, n)
  {
    if n == 0 then []
    else Present(fields, n - 1) + if fields[n - 1].Some? then [fields[n - 1].value] else []
  }

  function SecretsOf(lines: seq<string>): seq<string> {
    Present(Fields(lines), |lines|)
  }

  function RedactLines(lines: seq<string>): seq<string> {
    seq(|lines|, i requires 0 <= i < |lines| => RedactLine(lines[i]))
  }

  function MergeLines(draft: seq<string>, secrets: seq<string>): seq<string> {
    seq(|draft|, i requires 0 <= i < |draft| => MergeLine(draft[i], secrets, Count(Fields(draft), i)))
  }

  function RedactText(text: string): string {
    Join(RedactLines(Split(text)))
  }

  function MergeText(draft: string, current: string): string {
    Join(MergeLines(Split(draft), SecretsOf(Split(current))))
  }

  // redactYAML's fallback.
  method RedactInPlace(text: string) returns (redacted: string)
    ensures redacted == RedactText(text)
  {
    var split := Split(text);
    var lines := new string[|split|](i requires 0 <= i < |split| => split[i]);
    for index := 0 to lines.Length
      invariant forall j :: 0 <= j < index ==> lines[j] == RedactLine(split[j])
      invariant forall j :: index <= j < lines.Length ==> lines[j] == split[j]
    {
      match Index(lines[index], KEY) {
        case Some(separator) => lines[index] := lines[index][..separator] + KEY + " " + MASK;
        case None =>
      }
    }
    assert lines[..] == RedactLines(split);
    redacted := Join(lines[..]);
  }

  // The part of the loops that looks at one line.
  method ReadField(line: string) returns (field: Option<string>)
    ensures field == Field(line)
  {
    match Index(line, KEY) {
      case Some(index) => return Some(TrimSpace(line[index + |KEY|..]));
      case None => return None;
    }
  }

  method CollectSecrets(lines: seq<string>) returns (secrets: seq<string>)
    ensures secrets == SecretsOf(lines)
  {
    secrets := [];
    for i := 0 to |lines|
      invariant secrets == Present(Fields(lines), i)
    {
      var field := ReadField(lines[i]);
      if field.Some? {
        secrets := secrets + [field.value];
      }
    }
  }

  // The part of the second loop that looks at one line.
  method FillSecret(lines: array<string>, index: nat, secrets: seq<string>, secretIndex: nat) returns (next: nat)
    requires index < lines.Length
    modifies lines
    ensures lines[..] == old(lines[..])[index := MergeLine(old(lines[index]), secrets, secretIndex)]
    ensures next == secretIndex + if Field(old(lines[index])).Some? then 1 else 0
  {
    var line := lines[index];
    match Index(line, KEY) {
      case None => return secretIndex;
      case Some(keyIndex) =>
        var value := TrimSpace(line[keyIndex + |KEY|..]);
        if IsMask(value) && secretIndex < |secrets| {
          lines[index] := line[..keyIndex] + KEY + " " + secrets[secretIndex];
        }
        return secretIndex + 1;
    }
  }

  ghost predicate MergedAt(filled: string, draft: seq<string>, secrets: seq<string>, j: nat)
    requires j < |draft|
  {
    filled == MergeLine(draft[j], secrets, Count(Fields(draft), j))
  }

  method FillSecrets(lines: array<string>, secrets: seq<string>)
    modifies lines
    ensures forall j :: 0 <= j < lines.Length ==> MergedAt(lines[j], old(lines[..]), secrets, j)
  {
    ghost var draft := lines[..];
    var secretIndex := 0;
    for index := 0 to lines.Length
      invariant secretIndex == Count(Fields(draft), index)
      invariant forall j :: 0 <= j < index ==> MergedAt(lines[j], draft, secrets, j)
      invariant forall j :: index <= j < lines.Length ==> lines[j] == draft[j]
    {
      secretIndex := FillSecret(lines, index, secrets, secretIndex);
    }
  }

  method MergeMaskedLines(draft: string, current: string) returns (merged: string)
    ensures merged == MergeText(draft, current)
  {
    var secrets := CollectSecrets(Split(current));
    var split := Split(draft);
    var lines := new string[|split|](i requires 0 <= i < |split| => split[i]);
    assert lines[..] == split;
    FillSecrets(lines, secrets);
    assert lines[..] == MergeLines(split, secrets);
    merged := Join(lines[..]);
  }

  // ---- One line ----

  lemma Regroup(prefix: string, key: string, value: string)
    ensures prefix + key + " " + value == prefix + key + (" " + value)
    ensures (prefix + key + " " + value)[|prefix| + |key|..] == " " + value
  {
    assert (prefix + key + " " + value)[|prefix| + |key|..] == " " + value;
  }

  lemma WithValueRest(line: string, i: nat, value: string)
    requires i <= |line|
    ensures WithValue(line, i, value) == line[..i] + KEY + (" " + value)
    ensures WithValue(line, i, value)[i + |KEY|..] == " " + value
  {
    Regroup(line[..i], KEY, value);
  }

  lemma NoNewlineWith(line: string, i: nat, value: string)
    requires i <= |line| && '\n' !in line && '\n' !in value
    ensures '\n' !in WithValue(line, i, value)
  {
    assert '\n' !in KEY && '\n' !in line[..i];
    assert '\n' !in line[..i] + KEY;
    assert '\n' !in line[..i] + KEY + " ";
  }

  lemma KeyStays(line: string, value: string)
    requires Index(line, KEY).Some?
    ensures var i := Index(line, KEY).value;
      Index(WithValue(line, i, value), KEY) == Some(i) && WithValue(line, i, value)[..i] == line[..i]
  {
    var i := Index(line, KEY).value;
    IndexStays(line, KEY, " " + value);
    WithValueRest(line, i, value);
  }

  // The redacted value reads back as a mask.
  lemma RedactedIsMask(line: string)
    requires Index(line, KEY).Some?
    ensures Index(RedactLine(line), KEY) == Index(line, KEY)
    ensures Field(RedactLine(line)).Some? && IsMask(Field(RedactLine(line)).value)
  {
    var i := Index(line, KEY).value;
    KeyStays(line, MASK);
    WithValueRest(line, i, MASK);
    TrimmedMask();
  }

  lemma TrimmedMask()
    ensures IsMask(TrimSpace(" " + MASK))
  {
    assert TrimLeft(" " + MASK, IsSpace) == TrimLeft(MASK, IsSpace) == MASK by {
      assert (" " + MASK)[1..] == MASK;
    }
    assert TrimRight(MASK, IsSpace) == MASK;
    TrimmedAway(MASK, IsMaskChar);
  }

  // ---- The whole text ----

  predicate HasNoNewline(lines: seq<string>) {
    forall line :: line in lines ==> '\n' !in line
  }

  lemma RedactLinesSplit(text: string)
    ensures Split(RedactText(text)) == RedactLines(Split(text))
  {
    var lines := Split(text);
    forall line | line in RedactLines(lines) ensures '\n' !in line {
      var i :| 0 <= i < |lines| && line == RedactLine(lines[i]);
      assert lines[i] in lines;
      if Index(lines[i], KEY).Some? {
        NoNewlineWith(lines[i], Index(lines[i], KEY).value, MASK);
      }
    }
    SplitJoin(RedactLines(lines));
  }

  lemma {:induction false} PresentIn(fields: seq<Option<string>>, n: nat, value: string)
    requires n <= |fields| && value in Present(fields, n)
    ensures Some(value) in fields
  {
    if fields[n - 1] != Some(value) {
      PresentIn(fields, n - 1, value);
    }
  }

  lemma MergedHasNoNewline(line: string, secrets: seq<string>, k: nat)
    requires '\n' !in line && HasNoNewline(secrets)
    ensures '\n' !in MergeLine(line, secrets, k)
  {
    if Index(line, KEY).Some? && k < |secrets| {
      assert secrets[k] in secrets;
      NoNewlineWith(line, Index(line, KEY).value, secrets[k]);
    }
  }

  lemma FieldHasNoNewline(line: string)
    requires '\n' !in line && Field(line).Some?
    ensures '\n' !in Field(line).value
  {
    var i := Index(line, KEY).value;
    TrimSpacePart(line[i + |KEY|..]);
  }

  lemma MergeLinesSplit(draft: string, current: string)
    ensures Split(MergeText(draft, current)) == MergeLines(Split(draft), SecretsOf(Split(current)))
  {
    var lines, currents := Split(draft), Split(current);
    var secrets := SecretsOf(currents);
    forall secret | secret in secrets ensures '\n' !in secret {
      PresentIn(Fields(currents), |currents|, secret);
      var i :| 0 <= i < |currents| && Fields(currents)[i] == Some(secret);
      assert currents[i] in currents;
      FieldHasNoNewline(currents[i]);
    }
    forall line | line in MergeLines(lines, secrets) ensures '\n' !in line {
      var i :| 0 <= i < |lines| && line == MergeLine(lines[i], secrets, Count(Fields(lines), i));
      assert lines[i] in lines;
      MergedHasNoNewline(lines[i], secrets, Count(Fields(lines), i));
    }
    SplitJoin(MergeLines(lines, secrets));
  }

  // Fields keep their places, so the k-th finds the k-th secret.
  lemma {:induction false} CountStays(a: seq<Option<string>>, b: seq<Option<string>>, n: nat)
    requires n <= |a| == |b| && forall i :: 0 <= i < |a| ==> a[i].Some? == b[i].Some?
    ensures Count(a, n) == Count(b, n)
  {
    if n > 0 {
      CountStays(a, b, n - 1);
    }
  }

  lemma {:induction false} PresentAt(fields: seq<Option<string>>, i: nat, n: nat)
    requires i < n <= |fields| && fields[i].Some?
    ensures Count(fields, i) < Count(fields, n)
    ensures Present(fields, n)[Count(fields, i)] == fields[i].value
  {
    if i < n - 1 {
      PresentAt(fields, i, n - 1);
    }
  }

  function Normalized(line: string): string {
    match Index(line, KEY)
    case None => line
    case Some(i) => WithValue(line, i, Field(line).value)
  }

  // Merging a redacted text with the text itself: same number of lines, lines
  // without the key are untouched, and every key line gets its own value back,
  // trimmed, after its own prefix.
  lemma RoundTrip(text: string)
    ensures var lines, merged := Split(text), Split(MergeText(RedactText(text), text));
      && |merged| == |lines|
      && forall i :: 0 <= i < |lines| ==> merged[i] == Normalized(lines[i])
  {
    var lines := Split(text);
    var redacted, secrets := RedactLines(lines), SecretsOf(lines);
    RedactLinesSplit(text);
    MergeLinesSplit(RedactText(text), text);
    forall i | 0 <= i < |lines| ensures Fields(redacted)[i].Some? == Fields(lines)[i].Some? {
      if Index(lines[i], KEY).Some? {
        RedactedIsMask(lines[i]);
      }
    }
    forall i | 0 <= i < |lines| ensures MergeLines(redacted, secrets)[i] == Normalized(lines[i]) {
      if Index(lines[i], KEY).Some? {
        RedactedIsMask(lines[i]);
        KeyStays(lines[i], MASK);
        CountStays(Fields(lines), Fields(redacted), i);
        PresentAt(Fields(lines), i, |lines|);
      }
    }
  }

  // The text itself comes back exactly when every key is followed by one space
  // and a trimmed value.
  lemma RoundTripExact(text: string)
    ensures MergeText(RedactText(text), text) == text <==>
      forall i :: 0 <= i < |Split(text)| ==> Tidy(Split(text)[i])
  {
    var lines, merged := Split(text), MergeText(RedactText(text), text);
    RoundTrip(text);
    JoinSplit(text);
    JoinSplit(merged);
    forall i | 0 <= i < |lines| ensures Normalized(lines[i]) == lines[i] <==> Tidy(lines[i]) {
      NormalizedIff(lines[i]);
    }
    if forall i :: 0 <= i < |lines| ==> Tidy(lines[i]) {
      forall i | 0 <= i < |lines| ensures Split(merged)[i] == lines[i] {
        assert Tidy(lines[i]);
      }
      assert Split(merged) == lines;
    }
  }

  predicate Tidy(line: string) {
    match Index(line, KEY)
    case None => true
    case Some(i) => line[i + |KEY|..] == " " + TrimSpace(line[i + |KEY|..])
  }

  lemma NormalizedIff(line: string)
    ensures Normalized(line) == line <==> Tidy(line)
  {
    if Index(line, KEY).Some? {
      var i := Index(line, KEY).value;
      var rest, value := line[i + |KEY|..], TrimSpace(line[i + |KEY|..]);
      SplitAt(line, KEY);
      WithValueRest(line, i, value);
    }
  }

  // ---- Which lines a merge changes ----

  // Nothing but stars and quotes, or nothing at all.
  predicate OnlyMaskChars(value: string) {
    forall k :: 0 <= k < |value| ==> value[k] == '*' || value[k] == '"' || value[k] == '\''
  }

  lemma MaskIff(value: string)
    ensures IsMask(value) <==> OnlyMaskChars(value)
  {
    TrimmedAway(value, IsMaskChar);
    assert forall k :: 0 <= k < |value| ==>
      (IsMaskChar(value[k]) <==> value[k] == '*' || value[k] == '"' || value[k] == '\'');
  }

  // What stands after the key of line i, trimmed.
  ghost predicate IsKeyLine(lines: seq<string>, i: nat, value: string) {
    i < |lines| && Index(lines[i], "pat_token:").Some? &&
    value == TrimSpace(lines[i][Index(lines[i], "pat_token:").value + 10..])
  }

  lemma KeyLineIff(lines: seq<string>, i: nat, value: string)
    requires i < |lines|
    ensures IsKeyLine(lines, i, value) <==> Field(lines[i]) == Some(value)
  {
    assert KEY == "pat_token:" && |KEY| == 10;
  }

  // A line without the key stays, and so does one whose token the author typed.
  lemma TypedLineSurvives(draft: string, current: string, i: nat)
    requires i < |Split(draft)|
    requires forall value :: IsKeyLine(Split(draft), i, value) ==> !OnlyMaskChars(value)
    ensures i < |Split(MergeText(draft, current))| && Split(MergeText(draft, current))[i] == Split(draft)[i]
  {
    var lines := Split(draft);
    MergeLinesSplit(draft, current);
    if Field(lines[i]).Some? {
      KeyLineIff(lines, i, Field(lines[i]).value);
      MaskIff(Field(lines[i]).value);
    }
  }

  // The k-th key line of the draft, if masked, takes the k-th token of the
  // config, after its own prefix; without one it stays.
  lemma MaskedLineIsFilled(draft: string, current: string, i: nat, j: nat, mask: string, token: string)
    requires IsKeyLine(Split(draft), i, mask) && OnlyMaskChars(mask) && IsKeyLine(Split(current), j, token)
    requires Count(Fields(Split(draft)), i) == Count(Fields(Split(current)), j)
    ensures var line := Split(draft)[i];
      && i < |Split(MergeText(draft, current))|
      && Split(MergeText(draft, current))[i] == line[..Index(line, "pat_token:").value] + "pat_token:" + " " + token
  {
    var lines, currents := Split(draft), Split(current);
    MergeLinesSplit(draft, current);
    KeyLineIff(lines, i, mask);
    KeyLineIff(currents, j, token);
    MaskIff(mask);
    PresentAt(Fields(currents), j, |currents|);
  }

  lemma MaskedLineWithoutToken(draft: string, current: string, i: nat)
    requires i < |Split(draft)| && Count(Fields(Split(draft)), i) >= |SecretsOf(Split(current))|
    ensures i < |Split(MergeText(draft, current))| && Split(MergeText(draft, current))[i] == Split(draft)[i]
  {
    MergeLinesSplit(draft, current);
  }

  // The count of key lines before a line.
  lemma {:induction false} CountIs(lines: seq<string>, n: nat)
    requires n <= |lines|
    ensures Count(Fields(lines), n) == |KeyLines(lines, n)|
  {
    if n > 0 {
      CountIs(lines, n - 1);
      assert KeyLines(lines, n) ==
        KeyLines(lines, n - 1) + if Index(lines[n - 1], "pat_token:").Some? then {n - 1} else {};
    }
  }

  function KeyLines(lines: seq<string>, n: nat): set<nat>
    requires n <= |lines|
  {
    set i: nat | i < n && Index(lines[i], "pat_token:").Some?
  }

  // What is shown of a key line ends in stars, whatever stood there.
  lemma RedactedLineIs(text: string, i: nat)
    requires i < |Split(text)|
    ensures var line, shown := Split(text)[i], Split(RedactText(text));
      && i < |shown|
      && (Index(line, "pat_token:").Some? ==> shown[i] == line[..Index(line, "pat_token:").value] + "pat_token: ********")
      && (Index(line, "pat_token:").None? ==> shown[i] == line)
  {
    RedactLinesSplit(text);
    var line := Split(text)[i];
    if Index(line, KEY).Some? {
      var prefix := line[..Index(line, KEY).value];
      assert prefix + KEY + " " + MASK == prefix + "pat_token: ********";
    }
  }

  // For all drafts and configs, merging shows the same redacted text.
  lemma RedactMerge(draft: string, current: string)
    ensures RedactText(MergeText(draft, current)) == RedactText(draft)
  {
    var lines, secrets := Split(draft), SecretsOf(Split(current));
    var merged := MergeLines(lines, secrets);
    MergeLinesSplit(draft, current);
    forall i | 0 <= i < |lines| ensures RedactLine(merged[i]) == RedactLine(lines[i]) {
      MergedRedactsSame(lines[i], secrets, Count(Fields(lines), i));
    }
    assert RedactLines(merged) == RedactLines(lines);
  }

  lemma MergedRedactsSame(line: string, secrets: seq<string>, k: nat)
    ensures RedactLine(MergeLine(line, secrets, k)) == RedactLine(line)
  {
    if Index(line, KEY).Some? && k < |secrets| {
      KeyStays(line, secrets[k]);
    }
  }
}
