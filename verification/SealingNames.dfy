/** The names of sealing operations: labels, the command identities derived from them, and who may collide. */
module SealingNames {
  import opened Wrappers
  import opened StudyVocabulary

  const MAX_LABEL: nat := 80
  const PREFIX := "content-seal-v1/"
  const RECORD_SUFFIX := "/receipt"
  const REGISTER_SUFFIX := "/object"

  datatype IdError = InvalidLabel | DerivedCommandId

  datatype OperationRecord = Operation(digest: Digest, recordId: string, registerId: string)

  predicate Digit(c: char) {
    '0' <= c <= '9'
  }

  predicate Lower(c: char) {
    'a' <= c <= 'z'
  }

  predicate Alphanumeric(c: char) {
    Lower(c) || Digit(c) || 'A' <= c <= 'Z'
  }

  predicate ValidOperationLabel(value: string) {
    && 0 < |value| <= MAX_LABEL && Alphanumeric(value[0]) && Alphanumeric(value[|value| - 1])
    && forall c :: c in value ==> Lower(c) || Digit(c) || c == '-'
  }

  /** Printable ASCII without the space, at most 128 bytes. */
  predicate ValidCommandId(value: string) {
    0 < |value| <= 128 && forall c :: c in value ==> '!' <= c <= '~'
  }

  function RecordId(name: string): string {
    PREFIX + name + RECORD_SUFFIX
  }

  function RegisterId(name: string): string {
    PREFIX + name + REGISTER_SUFFIX
  }

  function Parse(name: string, digest: Digest): Result<OperationRecord, IdError> {
    if !ValidOperationLabel(name) then Err(InvalidLabel)
    else if !ValidCommandId(RecordId(name)) || !ValidCommandId(RegisterId(name)) then Err(DerivedCommandId)
    else Ok(Operation(digest, RecordId(name), RegisterId(name)))
  }

  /** The record's fields are private: an operation is what `Parse` gives for some label. */
  ghost predicate Named(o: OperationRecord) {
    exists name :: Parse(name, o.digest) == Ok(o)
  }

  ghost function AnyOperation(): (o: OperationRecord)
    ensures Named(o)
  {
    var d: Digest := seq(32, _ => 0);
    ParseAccepts("a", d);
    Parse("a", d).value
  }

  type Operation = o: OperationRecord | Named(o) ghost witness AnyOperation()

  lemma IdsDiffer(o: Operation)
    ensures o.recordId != o.registerId
  {
    var name :| Parse(name, o.digest) == Ok(o);
    IdsKeepTheLabel(name, name);
  }

  // ---------- labels and identities ----------

  lemma IdsKeepTheLabel(a: string, b: string)
    ensures RecordId(a) == RecordId(b) ==> a == b
    ensures RegisterId(a) == RegisterId(b) ==> a == b
    ensures RecordId(a) != RegisterId(b)
  {
    var r, s := RecordId(a), RegisterId(a);
    assert r[|PREFIX|..|r| - |RECORD_SUFFIX|] == a && s[|PREFIX|..|s| - |REGISTER_SUFFIX|] == a;
    assert RecordId(b)[|PREFIX|..|RecordId(b)| - |RECORD_SUFFIX|] == b;
    assert RegisterId(b)[|PREFIX|..|RegisterId(b)| - |REGISTER_SUFFIX|] == b;
    assert r[|r| - 7] == 'r' && RegisterId(b)[|RegisterId(b)| - 7] == '/';
  }

  /**
   * A label names an operation exactly when it starts and ends with a lower-case letter or digit and has
   * only those and hyphens between; a valid label never fails to give valid command identities.
   */
  lemma ParseAccepts(name: string, digest: Digest)
    ensures Parse(name, digest).Ok? <==>
      && 0 < |name| <= MAX_LABEL && name[0] != '-' && name[|name| - 1] != '-'
      && forall c :: c in name ==> Lower(c) || Digit(c) || c == '-'
    ensures Parse(name, digest) != Err(DerivedCommandId)
  {
    if ValidOperationLabel(name) {
      forall c | c in RecordId(name) ensures '!' <= c <= '~' { assert c in PREFIX || c in name || c in RECORD_SUFFIX; }
      forall c | c in RegisterId(name) ensures '!' <= c <= '~' { assert c in PREFIX || c in name || c in REGISTER_SUFFIX; }
    }
    if 0 < |name| { assert name[0] in name && name[|name| - 1] in name; }
  }

  /** Operations are equal exactly when label and digest are: neither can be swapped under the other. */
  lemma OperationsAreTheirLabels(a: string, d: Digest, b: string, e: Digest)
    requires Parse(a, d).Ok? && Parse(b, e).Ok?
    ensures Parse(a, d) == Parse(b, e) <==> a == b && d == e
    ensures a != b ==> {RecordId(a), RegisterId(a)} !! {RecordId(b), RegisterId(b)}
  {
    IdsKeepTheLabel(a, b);
    IdsKeepTheLabel(b, a);
  }

  // ---------- decimal numbers ----------

  function Digits(n: nat): (s: string)
    ensures |s| > 0 && forall c :: c in s ==> Digit(c)
  {
    if n < 10 then [('0' as int + n) as char] else Digits(n / 10) + [('0' as int + n % 10) as char]
  }

  function Decimal(n: int): string {
    if n < 0 then "-" + Digits(-n) else Digits(n)
  }

  function ValueOf(s: string): int {
    if s == [] then 0 else 10 * ValueOf(s[..|s| - 1]) + (s[|s| - 1] as int - '0' as int)
  }

  lemma {:induction false} DigitsDenote(n: nat)
    ensures ValueOf(Digits(n)) == n
  {
    if n < 10 {
      assert Digits(n)[..0] == [];
    } else {
      DigitsDenote(n / 10);
      assert Digits(n)[..|Digits(n)| - 1] == Digits(n / 10);
    }
  }

  function PowerOfTen(k: nat): (p: nat)
    ensures p >= 1
  {
    if k == 0 then 1 else 10 * PowerOfTen(k - 1)
  }

  lemma {:induction false} DigitsAreFew(n: nat, k: nat)
    requires 1 <= k && n < PowerOfTen(k)
    ensures |Digits(n)| <= k
  {
    if n >= 10 {
      assert PowerOfTen(0) == 1 && k >= 2;
      DigitsAreFew(n / 10, k - 1);
    }
  }

  lemma DecimalIsShort(n: I64)
    ensures 0 < |Decimal(n)| <= 20 && (n >= 0 ==> |Decimal(n)| <= 19)
    ensures forall c :: c in Decimal(n) ==> Digit(c) || c == '-'
    ensures Digit(Decimal(n)[|Decimal(n)| - 1])
  {
    var m: nat := if n < 0 then -(n as int) else n;
    assert PowerOfTen(10) == 10_000_000_000 by { assert PowerOfTen(4) == 10_000; assert PowerOfTen(8) == 100_000_000; }
    assert PowerOfTen(19) == 10_000_000_000_000_000_000 by {
      assert PowerOfTen(13) == 10_000_000_000_000;
      assert PowerOfTen(16) == 10_000_000_000_000_000;
    }
    DigitsAreFew(m, 19);
    assert Digit(Digits(m)[|Digits(m)| - 1]) by { assert Digits(m)[|Digits(m)| - 1] in Digits(m); }
  }

  /** A number and the hyphen after it can be told from what follows. */
  lemma NumberThenHyphen(a: int, x: string, b: int, y: string)
    requires Decimal(a) + "-" + x == Decimal(b) + "-" + y
    ensures a == b && x == y
  {
    hide Digits;
    SignShows(a, x);
    SignShows(b, y);
    if a < 0 {
      MinusFirst(-a, x);
      MinusFirst(-b, y);
      DigitsThenHyphen(-a, x, -b, y);
    } else {
      DigitsThenHyphen(a, x, b, y);
    }
  }

  lemma MinusFirst(n: nat, x: string)
    ensures ("-" + Digits(n) + "-" + x)[1..] == Digits(n) + "-" + x
  {
    hide Digits;
  }

  lemma SignShows(n: int, x: string)
    ensures (Decimal(n) + "-" + x)[0] == '-' <==> n < 0
  {
    if n >= 0 { assert Digits(n)[0] in Digits(n); }
  }

  lemma LongerHoldsTheHyphen(p: string, x: string, q: string, y: string)
    requires p + "-" + x == q + "-" + y && |p| < |q|
    ensures '-' in q
  {
    assert (p + "-" + x)[|p|] == '-' && (q + "-" + y)[|p|] == q[|p|];
  }

  lemma DigitsThenHyphen(a: nat, x: string, b: nat, y: string)
    requires Digits(a) + "-" + x == Digits(b) + "-" + y
    ensures a == b && x == y
  {
    var s, p, q := Digits(a) + "-" + x, Digits(a), Digits(b);
    if |p| < |q| { LongerHoldsTheHyphen(p, x, q, y); }
    if |q| < |p| { LongerHoldsTheHyphen(q, y, p, x); }
    assert p == s[..|p|] && q == s[..|q|];
    assert x == s[|p| + 1..] && y == s[|q| + 1..];
    DigitsDenote(a);
    DigitsDenote(b);
  }

  lemma DecimalIsInjective(a: int, b: int)
    requires Decimal(a) == Decimal(b)
    ensures a == b
  {
    assert Decimal(a) + "-" + [] == Decimal(b) + "-" + [];
    NumberThenHyphen(a, [], b, []);
  }

  // ---------- hexadecimal digests ----------

  const HEX := "0123456789abcdef"

  function HexDigit(n: nat): (c: char)
    requires n < 16
    ensures c == if n < 10 then ('0' as int + n) as char else ('a' as int + n - 10) as char
  {
    match n
    case 0 => HEX[0] case 1 => HEX[1] case 2 => HEX[2] case 3 => HEX[3]
    case 4 => HEX[4] case 5 => HEX[5] case 6 => HEX[6] case 7 => HEX[7]
    case 8 => HEX[8] case 9 => HEX[9] case 10 => HEX[10] case 11 => HEX[11]
    case 12 => HEX[12] case 13 => HEX[13] case 14 => HEX[14] case _ => HEX[15]
  }

  function HexByte(b: Byte): (s: string)
    ensures |s| == 2 && forall c :: c in s ==> Digit(c) || 'a' <= c <= 'f'
  {
    [HexDigit(b / 16), HexDigit(b % 16)]
  }

  function Hex(d: seq<Byte>): (s: string)
    ensures |s| == 2 * |d| && forall c :: c in s ==> Digit(c) || 'a' <= c <= 'f'
  {
    if d == [] then [] else Hex(d[..|d| - 1]) + HexByte(d[|d| - 1])
  }

  lemma HexDigitIsInjective(m: nat, n: nat)
    requires m < 16 && n < 16 && HexDigit(m) == HexDigit(n)
    ensures m == n
  {
  }

  lemma HexByteIsInjective(a: Byte, b: Byte)
    requires HexByte(a) == HexByte(b)
    ensures a == b
  {
    assert HexByte(a)[0] == HexByte(b)[0] && HexByte(a)[1] == HexByte(b)[1];
    HexDigitIsInjective(a / 16, b / 16);
    HexDigitIsInjective(a % 16, b % 16);
  }

  lemma {:induction false} HexIsInjective(d: seq<Byte>, e: seq<Byte>)
    requires Hex(d) == Hex(e)
    ensures d == e
  {
    if |d| > 0 {
      var n := |Hex(d)|;
      assert Hex(d)[..n - 2] == Hex(d[..|d| - 1]) && Hex(e)[..n - 2] == Hex(e[..|e| - 1]);
      HexIsInjective(d[..|d| - 1], e[..|e| - 1]);
      assert Hex(d)[n - 2..] == HexByte(d[|d| - 1]) && Hex(e)[n - 2..] == HexByte(e[|e| - 1]);
      HexByteIsInjective(d[|d| - 1], e[|e| - 1]);
      assert d == d[..|d| - 1] + [d[|d| - 1]] && e == e[..|e| - 1] + [e[|e| - 1]];
    }
  }

  // ---------- the three families of operations ----------

  datatype Stream = AdmittedControl | PhysicalStdin | Stdout | Stderr

  /** What a daemon-derived operation is about. */
  datatype Subject =
    | NativeChildStream(admission: Id, stream: Stream)
    | MissionSource(source: Digest)
    | StudyForumRead(obligation: Id, first: I64, through: I64)

  function StreamName(stream: Stream): string {
    match stream
    case AdmittedControl => "admitted-control"
    case PhysicalStdin => "physical-stdin"
    case Stdout => "stdout"
    case Stderr => "stderr"
  }

  function Label(subject: Subject): string {
    match subject
    case NativeChildStream(admission, stream) => "native-admission-" + Decimal(admission) + "-" + StreamName(stream)
    case MissionSource(source) => "mission-source-" + Hex(source)
    case StudyForumRead(obligation, first, through) =>
      "study-forum-read-" + Decimal(obligation) + "-" + Decimal(first) + "-" + Decimal(through)
  }

  predicate LabelText(s: string) {
    forall c :: c in s ==> Lower(c) || Digit(c) || c == '-'
  }

  lemma LabelTextJoins(a: string, b: string)
    requires LabelText(a) && LabelText(b)
    ensures LabelText(a + b)
  {
  }

  /** Starting with a letter, ending in a letter or digit, of label text and short: a valid label. */
  lemma LabelAccepted(s: string, digest: Digest)
    requires 0 < |s| <= MAX_LABEL && LabelText(s) && s[0] != '-' && s[|s| - 1] != '-'
    ensures Parse(s, digest).Ok?
  {
    ParseAccepts(s, digest);
  }

  lemma StreamNameText(stream: Stream)
    ensures 0 < |StreamName(stream)| <= 16 && LabelText(StreamName(stream))
    ensures StreamName(stream)[|StreamName(stream)| - 1] != '-'
  {
  }

  lemma StreamLabel(admission: Id, stream: Stream, digest: Digest)
    ensures Parse(Label(NativeChildStream(admission, stream)), digest).Ok?
  {
    hide Decimal, StreamName;
    DecimalIsShort(admission);
    StreamNameText(stream);
    var head, tail := "native-admission-" + Decimal(admission) + "-", StreamName(stream);
    LabelTextJoins("native-admission-", Decimal(admission));
    LabelTextJoins("native-admission-" + Decimal(admission), "-");
    LabelTextJoins(head, tail);
    LabelAccepted(head + tail, digest);
  }

  lemma MissionLabel(source: Digest, digest: Digest)
    ensures Parse(Label(MissionSource(source)), digest).Ok?
  {
    var tail := Hex(source);
    LabelTextJoins("mission-source-", tail);
    assert tail[|tail| - 1] in tail;
    LabelAccepted("mission-source-" + tail, digest);
  }

  lemma ReadLabel(obligation: Id, first: I64, through: I64, digest: Digest)
    ensures Parse(Label(StudyForumRead(obligation, first, through)), digest).Ok?
  {
    hide Decimal;
    DecimalIsShort(obligation);
    DecimalIsShort(first);
    DecimalIsShort(through);
    var a := "study-forum-read-" + Decimal(obligation);
    var b := a + "-" + Decimal(first);
    LabelTextJoins("study-forum-read-", Decimal(obligation));
    LabelTextJoins(a, "-");
    LabelTextJoins(a + "-", Decimal(first));
    LabelTextJoins(b, "-");
    LabelTextJoins(b + "-", Decimal(through));
    LabelAccepted(b + "-" + Decimal(through), digest);
  }

  /** Every derived label is valid, whatever its numbers are. */
  lemma DerivedLabelsParse(subject: Subject, digest: Digest)
    ensures Parse(Label(subject), digest).Ok?
  {
    hide Parse, Label;
    match subject
    case NativeChildStream(admission, stream) => StreamLabel(admission, stream, digest);
    case MissionSource(source) => MissionLabel(source, digest);
    case StudyForumRead(obligation, first, through) => ReadLabel(obligation, first, through, digest);
  }

  lemma StreamsDiffer(a: Stream, b: Stream)
    requires StreamName(a) == StreamName(b)
    ensures a == b
  {
    assert StreamName(AdmittedControl)[0] == 'a' && StreamName(PhysicalStdin)[0] == 'p';
    assert StreamName(Stdout)[3] == 'o' && StreamName(Stderr)[3] == 'e';
  }

  lemma StreamLabelsDiffer(m: Id, s: Stream, n: Id, t: Stream)
    requires Label(NativeChildStream(m, s)) == Label(NativeChildStream(n, t))
    ensures m == n && s == t
  {
    hide Decimal, StreamName;
    var a, b := Decimal(m) + "-" + StreamName(s), Decimal(n) + "-" + StreamName(t);
    assert Label(NativeChildStream(m, s)) == "native-admission-" + a && Label(NativeChildStream(n, t)) == "native-admission-" + b;
    SamePrefix("native-admission-", a, b);
    NumberThenHyphen(m, StreamName(s), n, StreamName(t));
    StreamsDiffer(s, t);
  }

  lemma SamePrefix(p: string, a: string, b: string)
    requires p + a == p + b
    ensures a == b
  {
    assert (p + a)[|p|..] == a && (p + b)[|p|..] == b;
  }

  lemma ReadLabelsDiffer(o: Id, f: I64, t: I64, p: Id, g: I64, u: I64)
    requires Label(StudyForumRead(o, f, t)) == Label(StudyForumRead(p, g, u))
    ensures o == p && f == g && t == u
  {
    hide Decimal;
    var x, y := Decimal(f) + "-" + Decimal(t), Decimal(g) + "-" + Decimal(u);
    assert Label(StudyForumRead(o, f, t)) == "study-forum-read-" + (Decimal(o) + "-" + x);
    assert Label(StudyForumRead(p, g, u)) == "study-forum-read-" + (Decimal(p) + "-" + y);
    SamePrefix("study-forum-read-", Decimal(o) + "-" + x, Decimal(p) + "-" + y);
    NumberThenHyphen(o, x, p, y);
    NumberThenHyphen(f, Decimal(t), g, Decimal(u));
    DecimalIsInjective(t, u);
  }

  lemma Initial(subject: Subject)
    ensures |Label(subject)| > 0
    ensures Label(subject)[0] == if subject.NativeChildStream? then 'n' else if subject.MissionSource? then 'm' else 's'
  {
    hide Decimal, Hex, StreamName;
  }

  /** Different subjects have different labels, within a family and across families. */
  lemma LabelsNameSubjects(a: Subject, b: Subject)
    requires Label(a) == Label(b)
    ensures a == b
  {
    hide Decimal, Hex, StreamName;
    Initial(a);
    Initial(b);
    if a.NativeChildStream? {
      StreamLabelsDiffer(a.admission, a.stream, b.admission, b.stream);
    } else if a.MissionSource? {
      SamePrefix("mission-source-", Hex(a.source), Hex(b.source));
      HexIsInjective(a.source, b.source);
    } else {
      ReadLabelsDiffer(a.obligation, a.first, a.through, b.obligation, b.first, b.through);
    }
  }

  /** The label of a mission source, digit by digit. */
  method MissionSourceLabel(source: Digest) returns (name: string)
    ensures name == Label(MissionSource(source))
  {
    name := "mission-source-";
    for i := 0 to |source|
      invariant name == "mission-source-" + Hex(source[..i])
    {
      assert source[..i + 1][..i] == source[..i];
      name := name + [HexDigit(source[i] / 16)];
      name := name + [HexDigit(source[i] % 16)];
    }
    assert source[..|source|] == source;
  }
}
