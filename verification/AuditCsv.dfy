/**
 * The CSV export of packages/sdk/src/audit.ts, and a reader for it in the style of section 2 of
 * RFC 4180, with records ending in a line feed.
 */
module AuditCsv {
  import opened Base
  import opened AuditChain

  // ---- The printer ----

  predicate Special(c: char) {
    c == '"' || c == ',' || c == '\n'
  }

  predicate NeedsQuotes(text: string) {
    exists i | 0 <= i < |text| :: Special(text[i])
  }

  function Doubled(text: string): string {
    if text == "" then ""
    else (if text[0] == '"' then ['"', '"'] else [text[0]]) + Doubled(text[1..])
  }

  function CsvValue(text: string): string {
    if NeedsQuotes(text) then ['"'] + Doubled(text) + ['"'] else text
  }

  function Line(fields: seq<string>): string {
    if fields == [] then ""
    else if |fields| == 1 then CsvValue(fields[0])
    else CsvValue(fields[0]) + [','] + Line(fields[1..])
  }

  function Document(rows: seq<seq<string>>): string {
    if rows == [] then ""
    else if |rows| == 1 then Line(rows[0])
    else Line(rows[0]) + ['\n'] + Document(rows[1..])
  }

  /** A text is quoted exactly when it holds a quote, a comma or a line feed; otherwise it is printed as it is. */
  lemma QuotedExactly(text: string)
    ensures CsvValue(text) == text <==> '"' !in text && ',' !in text && '\n' !in text
    ensures CsvValue(text) != text ==> CsvValue(text) == ['"'] + Doubled(text) + ['"']
  {
    DoubledLonger(text);
    if NeedsQuotes(text) {
      var i :| 0 <= i < |text| && Special(text[i]);
      assert text[i] in text;
      assert |CsvValue(text)| == |Doubled(text)| + 2;
    }
  }

  lemma {:induction false} DoubledLonger(text: string)
    ensures |Doubled(text)| >= |text|
  {
    if text != "" {
      DoubledLonger(text[1..]);
    }
  }

  // ---- The reader ----

  /** What was read, and what is left; None when the text is malformed. */
  datatype Parsed<T> = Malformed | Read(value: T, rest: string)

  /** The rest of a quoted field, after its opening quote. */
  function ReadQuoted(s: string): (p: Parsed<string>)
    ensures p.Read? ==> |p.rest| < |s|
  {
    if s == "" then Malformed
    else if s[0] != '"' then
      var p := ReadQuoted(s[1..]);
      if p.Read? then Read([s[0]] + p.value, p.rest) else Malformed
    else if |s| > 1 && s[1] == '"' then
      var p := ReadQuoted(s[2..]);
      if p.Read? then Read(['"'] + p.value, p.rest) else Malformed
    else Read("", s[1..])
  }

  function ReadPlain(s: string): (p: Parsed<string>)
    ensures p.Read? ==> |p.rest| <= |s|
  {
    if s == "" || s[0] == ',' || s[0] == '\n' then Read("", s)
    else if s[0] == '"' then Malformed
    else
      var p := ReadPlain(s[1..]);
      if p.Read? then Read([s[0]] + p.value, p.rest) else Malformed
  }

  function ReadField(s: string): (p: Parsed<string>)
    ensures p.Read? ==> |p.rest| <= |s|
  {
    if s != "" && s[0] == '"' then ReadQuoted(s[1..]) else ReadPlain(s)
  }

  function ReadLine(s: string): (p: Parsed<seq<string>>)
    ensures p.Read? ==> |p.rest| <= |s| && (p.rest == "" || p.rest[0] == '\n')
    decreases |s|
  {
    var field := ReadField(s);
    if field.Malformed? then Malformed
    else if field.rest == "" || field.rest[0] == '\n' then Read([field.value], field.rest)
    else if field.rest[0] == ',' then
      var more := ReadLine(field.rest[1..]);
      if more.Read? then Read([field.value] + more.value, more.rest) else Malformed
    else Malformed
  }

  function ReadDocument(s: string): Option<seq<seq<string>>>
    decreases |s|
  {
    var line := ReadLine(s);
    if line.Malformed? then None
    else if line.rest == "" then Some([line.value])
    else
      var more := ReadDocument(line.rest[1..]);
      if more.Some? then Some([line.value] + more.value) else None
  }

  // ---- Reading back what was printed ----

  predicate FieldEnds(rest: string) {
    rest == "" || rest[0] == ',' || rest[0] == '\n'
  }

  /** What the reader makes of one printed character of a quoted field. */
  lemma QuotedStep(c: char, tail: string)
    ensures ReadQuoted((if c == '"' then ['"', '"'] else [c]) + tail) ==
            var p := ReadQuoted(tail); if p.Read? then Read([c] + p.value, p.rest) else Malformed
  {
    var s := (if c == '"' then ['"', '"'] else [c]) + tail;
    if c == '"' {
      assert s[2..] == tail;
    } else {
      assert s[1..] == tail;
    }
  }

  lemma QuotedEnds(rest: string)
    requires FieldEnds(rest)
    ensures ReadQuoted(['"'] + rest) == Read("", rest)
  {
    assert (['"'] + rest)[1..] == rest;
  }

  lemma Associates<T>(a: seq<T>, b: seq<T>, c: seq<T>)
    ensures (a + b) + c == a + (b + c)
  {
  }

  lemma {:induction false} QuotedReadsBack(text: string, rest: string)
    requires FieldEnds(rest)
    ensures ReadQuoted(Doubled(text) + (['"'] + rest)) == Read(text, rest)
  {
    var ending := ['"'] + rest;
    if text == "" {
      QuotedEnds(rest);
      assert Doubled(text) + ending == ending;
    } else {
      QuotedReadsBack(text[1..], rest);
      QuotedStep(text[0], Doubled(text[1..]) + ending);
      hide ReadQuoted;
      Associates(if text[0] == '"' then ['"', '"'] else [text[0]], Doubled(text[1..]), ending);
      assert [text[0]] + text[1..] == text;
    }
  }

  lemma {:induction false} PlainReadsBack(text: string, rest: string)
    requires !NeedsQuotes(text) && FieldEnds(rest)
    ensures ReadPlain(text + rest) == Read(text, rest)
  {
    if text == "" {
      assert text + rest == rest;
    } else {
      assert !Special(text[0]);
      assert forall i | 0 <= i < |text| - 1 :: text[1..][i] == text[i + 1];
      PlainReadsBack(text[1..], rest);
      assert (text + rest)[1..] == text[1..] + rest;
      assert [text[0]] + text[1..] == text;
    }
  }

  lemma FieldReadsBack(text: string, rest: string)
    requires FieldEnds(rest)
    ensures ReadField(CsvValue(text) + rest) == Read(text, rest)
  {
    hide ReadQuoted, ReadPlain, Doubled;
    var s := CsvValue(text) + rest;
    if NeedsQuotes(text) {
      QuotedReadsBack(text, rest);
      Associates(['"'] + Doubled(text), ['"'], rest);
      Associates(['"'], Doubled(text), ['"'] + rest);
      assert s[1..] == Doubled(text) + (['"'] + rest);
    } else {
      PlainReadsBack(text, rest);
      if text != "" {
        assert !Special(text[0]) && s[0] == text[0];
      } else {
        assert s == rest;
      }
    }
  }

  lemma {:induction false} LineReadsBack(fields: seq<string>, rest: string)
    requires fields != [] && (rest == "" || rest[0] == '\n')
    ensures ReadLine(Line(fields) + rest) == Read(fields, rest)
  {
    hide ReadField, CsvValue;
    if |fields| == 1 {
      FieldReadsBack(fields[0], rest);
      assert [fields[0]] == fields;
    } else {
      var more := Line(fields[1..]) + rest;
      Associates(CsvValue(fields[0]) + [','], Line(fields[1..]), rest);
      Associates(CsvValue(fields[0]), [','], more);
      FieldReadsBack(fields[0], [','] + more);
      assert ([','] + more)[1..] == more;
      LineReadsBack(fields[1..], rest);
      assert [fields[0]] + fields[1..] == fields;
    }
  }

  /** Every list of non-empty rows of arbitrary strings survives printing and reading. */
  lemma {:induction false} DocumentReadsBack(rows: seq<seq<string>>)
    requires rows != [] && forall i | 0 <= i < |rows| :: rows[i] != []
    ensures ReadDocument(Document(rows)) == Some(rows)
  {
    hide ReadLine, Line;
    if |rows| == 1 {
      LineReadsBack(rows[0], "");
      assert Line(rows[0]) + "" == Line(rows[0]);
      assert [rows[0]] == rows;
    } else {
      var more := Document(rows[1..]);
      DocumentReadsBack(rows[1..]);
      LineReadsBack(rows[0], ['\n'] + more);
      Associates(Line(rows[0]), ['\n'], more);
      assert (['\n'] + more)[1..] == more;
      assert [rows[0]] + rows[1..] == rows;
    }
  }

  // ---- The export ----

  datatype ExportValue = NullField | TextField(text: string) | NumberField(number: int)

  function Digits(n: nat): string {
    if n < 10 then ['0' + n as char] else Digits(n / 10) + ['0' + (n % 10) as char]
  }

  function Decimal(n: int): string {
    if n < 0 then ['-'] + Digits(-n) else Digits(n)
  }

  function FieldText(v: ExportValue): string {
    match v
    case NullField => ""
    case TextField(text) => text
    case NumberField(number) => Decimal(number)
  }

  const EXPORT_FIELDS := [
    "eventId", "timestamp", "sequence", "orgId", "appId", "principal", "actor", "delegation",
    "sessionId", "traceId", "parentId", "channel", "kitId", "pluginId", "action", "outcome",
    "errorCode", "resultHash", "previousHash", "hash", "attributes"
  ]

  function OptionalField(o: Optional): (v: ExportValue)
    ensures !v.NumberField? && FieldText(v) == Shown(o)
  {
    if o.Value? then TextField(o.text) else NullField
  }

  function ActorFields(r: Record): (values: seq<ExportValue>)
    ensures |values| == 8 && forall k | 0 <= k < 8 :: values[k].NumberField? <==> k == 2
  {
    var e := r.body.event;
    [TextField(e.eventId), TextField(e.timestamp), NumberField(r.body.sequence), TextField(e.orgId),
     OptionalField(e.appId), TextField(e.principal), TextField(e.actor), OptionalField(e.delegation)]
  }

  function ContextFields(r: Record): (values: seq<ExportValue>)
    ensures |values| == 6 && forall k | 0 <= k < 6 :: !values[k].NumberField?
  {
    var e := r.body.event;
    [OptionalField(e.sessionId), OptionalField(e.traceId), OptionalField(e.parentId), OptionalField(e.channel),
     OptionalField(e.kitId), OptionalField(e.pluginId)]
  }

  /** `json` is the JSON text of the sorted attributes. */
  function OutcomeFields(r: Record, json: map<string, AttributeValue> -> string): (values: seq<ExportValue>)
    ensures |values| == 7 && forall k | 0 <= k < 7 :: !values[k].NumberField?
  {
    var e := r.body.event;
    [TextField(e.action), TextField(e.outcome), OptionalField(e.errorCode), OptionalField(e.resultHash),
     if r.body.previousHash.Some? then TextField(r.body.previousHash.value) else NullField,
     TextField(r.hash), TextField(json(Sorted(r.body.attributes)))]
  }

  /** Every record has the same fields, of which only the sequence is a number. */
  function ToExport(r: Record, json: map<string, AttributeValue> -> string): (values: seq<ExportValue>)
    ensures |values| == 21
    ensures forall k | 0 <= k < 21 :: values[k].NumberField? <==> k == 2
  {
    ActorFields(r) + ContextFields(r) + OutcomeFields(r, json)
  }

  /** The names of the columns, in order. */
  lemma HeaderNames()
    ensures
      && |EXPORT_FIELDS| == 21
      && EXPORT_FIELDS[0] == "eventId" && EXPORT_FIELDS[1] == "timestamp"
      && EXPORT_FIELDS[2] == "sequence" && EXPORT_FIELDS[3] == "orgId"
      && EXPORT_FIELDS[4] == "appId" && EXPORT_FIELDS[5] == "principal"
      && EXPORT_FIELDS[6] == "actor" && EXPORT_FIELDS[7] == "delegation"
      && EXPORT_FIELDS[8] == "sessionId" && EXPORT_FIELDS[9] == "traceId"
      && EXPORT_FIELDS[10] == "parentId" && EXPORT_FIELDS[11] == "channel"
      && EXPORT_FIELDS[12] == "kitId" && EXPORT_FIELDS[13] == "pluginId"
      && EXPORT_FIELDS[14] == "action" && EXPORT_FIELDS[15] == "outcome"
      && EXPORT_FIELDS[16] == "errorCode" && EXPORT_FIELDS[17] == "resultHash"
      && EXPORT_FIELDS[18] == "previousHash" && EXPORT_FIELDS[19] == "hash"
      && EXPORT_FIELDS[20] == "attributes"
  {
  }

  /** Each column holds the field of that name: who acted, and when. */
  lemma ColumnsOfActors(r: Record, json: map<string, AttributeValue> -> string)
    ensures var e, values := r.body.event, ToExport(r, json);
      && values[0] == TextField(e.eventId)
      && values[1] == TextField(e.timestamp)
      && values[2] == NumberField(r.body.sequence)
      && values[3] == TextField(e.orgId)
      && values[4] == OptionalField(e.appId)
      && values[5] == TextField(e.principal)
      && values[6] == TextField(e.actor)
      && values[7] == OptionalField(e.delegation)
  {
    hide OptionalField, Sorted;
  }

  /** The same: in which session, on which channel, and what. */
  lemma ColumnsOfContext(r: Record, json: map<string, AttributeValue> -> string)
    ensures var e, values := r.body.event, ToExport(r, json);
      && values[8] == OptionalField(e.sessionId)
      && values[9] == OptionalField(e.traceId)
      && values[10] == OptionalField(e.parentId)
      && values[11] == OptionalField(e.channel)
      && values[12] == OptionalField(e.kitId)
      && values[13] == OptionalField(e.pluginId)
      && values[14] == TextField(e.action)
      && values[15] == TextField(e.outcome)
  {
    hide OptionalField, Sorted;
  }

  /** The same: with which result, and the links of the chain. */
  lemma ColumnsOfOutcome(r: Record, json: map<string, AttributeValue> -> string)
    ensures var e, values := r.body.event, ToExport(r, json);
      && values[16] == OptionalField(e.errorCode)
      && values[17] == OptionalField(e.resultHash)
      && values[18] == (if r.body.previousHash.Some? then TextField(r.body.previousHash.value) else NullField)
      && values[19] == TextField(r.hash)
      && values[20] == TextField(json(Sorted(r.body.attributes)))
  {
    hide OptionalField, Sorted;
  }

  function Texts(values: seq<ExportValue>): seq<string> {
    seq(|values|, i requires 0 <= i < |values| => FieldText(values[i]))
  }

  function ExportRows(records: seq<Record>, json: map<string, AttributeValue> -> string): seq<seq<string>> {
    seq(|records|, i requires 0 <= i < |records| => Texts(ToExport(records[i], json)))
  }

  function ExportCsv(records: seq<Record>, json: map<string, AttributeValue> -> string): string {
    Document([EXPORT_FIELDS] + ExportRows(records, json))
  }

  /** Reading an export gives the header and then every field text of every record. */
  lemma ExportReadsBack(records: seq<Record>, json: map<string, AttributeValue> -> string)
    ensures ReadDocument(ExportCsv(records, json)) == Some([EXPORT_FIELDS] + ExportRows(records, json))
  {
    DocumentReadsBack([EXPORT_FIELDS] + ExportRows(records, json));
  }

  function Value(digits: string): int {
    if digits == "" then 0 else Value(digits[..|digits| - 1]) * 10 + (digits[|digits| - 1] as int - '0' as int)
  }

  lemma {:induction false} DigitsValue(n: nat)
    ensures Value(Digits(n)) == n && Digits(n) != "" && Digits(n)[0] != '-'
  {
    if n >= 10 {
      DigitsValue(n / 10);
      assert Digits(n)[..|Digits(n)| - 1] == Digits(n / 10);
    } else {
      assert Digits(n)[..0] == "";
    }
  }

  lemma DecimalInjective(m: int, n: int)
    requires Decimal(m) == Decimal(n)
    ensures m == n
  {
    DigitsValue(if m < 0 then -m else m);
    DigitsValue(if n < 0 then -n else n);
    if m < 0 && n < 0 {
      assert Decimal(m)[1..] == Digits(-m) && Decimal(n)[1..] == Digits(-n);
    }
  }

  /** A number is printed in decimal digits, after a minus sign exactly if it is negative, without leading zeros. */
  lemma DecimalReadsBack(n: int)
    ensures var text := Decimal(n);
      && text != "" && (text[0] == '-' <==> n < 0)
      && n == if n < 0 then -Value(text[1..]) else Value(text)
  {
    DigitsValue(if n < 0 then -n else n);
    if n < 0 {
      assert Decimal(n)[1..] == Digits(-n);
    }
  }

  lemma {:induction false} NoLeadingZero(n: nat)
    ensures n > 0 ==> Digits(n)[0] != '0'
    ensures forall i | 0 <= i < |Digits(n)| :: '0' <= Digits(n)[i] <= '9'
  {
    if n >= 10 {
      NoLeadingZero(n / 10);
    }
  }

  predicate NullOrEmpty(v: ExportValue) {
    v == NullField || v == TextField("")
  }

  /** A field's text determines it, except that null and the empty string print alike. */
  lemma TextIdentifies(v: ExportValue, w: ExportValue)
    requires v.NumberField? <==> w.NumberField?
    ensures FieldText(v) == FieldText(w) <==> v == w || (NullOrEmpty(v) && NullOrEmpty(w))
  {
    if v.NumberField? && FieldText(v) == FieldText(w) {
      DecimalInjective(v.number, w.number);
    }
  }

  /** What is shown of an optional text. */
  function Shown(o: Optional): string {
    if o.Value? then o.text else ""
  }

  function ShownHash(o: Option<string>): string {
    if o.Some? then o.value else ""
  }

  /** The two records agree in everything an export shows of them, null and the empty string being alike. */
  ghost predicate SameShown(a: Record, b: Record, json: map<string, AttributeValue> -> string) {
    var e, f := a.body.event, b.body.event;
    && SameActors(e, f) && SameContext(e, f) && e.action == f.action && e.outcome == f.outcome
    && Shown(e.errorCode) == Shown(f.errorCode) && Shown(e.resultHash) == Shown(f.resultHash)
    && a.body.sequence == b.body.sequence && a.hash == b.hash
    && ShownHash(a.body.previousHash) == ShownHash(b.body.previousHash)
    && json(Sorted(a.body.attributes)) == json(Sorted(b.body.attributes))
  }

  predicate SameActors(e: Event, f: Event) {
    && e.eventId == f.eventId && e.timestamp == f.timestamp && e.orgId == f.orgId && Shown(e.appId) == Shown(f.appId)
    && e.principal == f.principal && e.actor == f.actor && Shown(e.delegation) == Shown(f.delegation)
  }

  predicate SameContext(e: Event, f: Event) {
    && Shown(e.sessionId) == Shown(f.sessionId) && Shown(e.traceId) == Shown(f.traceId)
    && Shown(e.parentId) == Shown(f.parentId) && Shown(e.channel) == Shown(f.channel)
    && Shown(e.kitId) == Shown(f.kitId) && Shown(e.pluginId) == Shown(f.pluginId)
  }

  lemma ActorsAlike(a: Record, b: Record)
    ensures Texts(ActorFields(a)) == Texts(ActorFields(b)) <==>
            SameActors(a.body.event, b.body.event) && a.body.sequence == b.body.sequence
  {
    var v, w := Texts(ActorFields(a)), Texts(ActorFields(b));
    TextIdentifies(NumberField(a.body.sequence), NumberField(b.body.sequence));
    hide Decimal;
    assert v == w ==> v[0] == w[0] && v[1] == w[1] && v[2] == w[2] && v[3] == w[3] && v[4] == w[4] && v[5] == w[5]
                      && v[6] == w[6] && v[7] == w[7];
  }

  lemma ContextAlike(a: Record, b: Record)
    ensures Texts(ContextFields(a)) == Texts(ContextFields(b)) <==> SameContext(a.body.event, b.body.event)
  {
    hide OptionalField, Shown;
    var v, w := Texts(ContextFields(a)), Texts(ContextFields(b));
    assert v == w ==> v[0] == w[0] && v[1] == w[1] && v[2] == w[2] && v[3] == w[3] && v[4] == w[4] && v[5] == w[5];
  }

  lemma OutcomeAlike(a: Record, b: Record, json: map<string, AttributeValue> -> string)
    ensures Texts(OutcomeFields(a, json)) == Texts(OutcomeFields(b, json)) <==>
            && a.body.event.action == b.body.event.action && a.body.event.outcome == b.body.event.outcome
            && Shown(a.body.event.errorCode) == Shown(b.body.event.errorCode)
            && Shown(a.body.event.resultHash) == Shown(b.body.event.resultHash)
            && ShownHash(a.body.previousHash) == ShownHash(b.body.previousHash) && a.hash == b.hash
            && json(Sorted(a.body.attributes)) == json(Sorted(b.body.attributes))
  {
    hide Sorted, OptionalField, Shown;
    var v, w := Texts(OutcomeFields(a, json)), Texts(OutcomeFields(b, json));
    assert v == w ==> v[0] == w[0] && v[1] == w[1] && v[2] == w[2] && v[3] == w[3] && v[4] == w[4] && v[5] == w[5]
                      && v[6] == w[6];
  }

  lemma TextsApart(v: seq<ExportValue>, w: seq<ExportValue>)
    ensures Texts(v + w) == Texts(v) + Texts(w)
  {
    hide FieldText;
  }

  lemma PartsAlike<T>(a: seq<T>, b: seq<T>, c: seq<T>, d: seq<T>)
    requires |a| == |c|
    ensures a + b == c + d <==> a == c && b == d
  {
    if a + b == c + d {
      assert a == (a + b)[..|a|] && c == (c + d)[..|c|];
      assert b == (a + b)[|a|..] && d == (c + d)[|c|..];
    }
  }

  /** Two rows are the same exactly for records that agree in everything shown. */
  lemma RowsAlike(a: Record, b: Record, json: map<string, AttributeValue> -> string)
    ensures Texts(ToExport(a, json)) == Texts(ToExport(b, json)) <==> SameShown(a, b, json)
  {
    ActorsAlike(a, b);
    ContextAlike(a, b);
    OutcomeAlike(a, b, json);
    hide ActorFields, ContextFields, OutcomeFields, Shown, ShownHash, SameActors, SameContext, Sorted, FieldText;
    TextsApart(ActorFields(a) + ContextFields(a), OutcomeFields(a, json));
    TextsApart(ActorFields(b) + ContextFields(b), OutcomeFields(b, json));
    TextsApart(ActorFields(a), ContextFields(a));
    TextsApart(ActorFields(b), ContextFields(b));
    PartsAlike(Texts(ActorFields(a)) + Texts(ContextFields(a)), Texts(OutcomeFields(a, json)),
               Texts(ActorFields(b)) + Texts(ContextFields(b)), Texts(OutcomeFields(b, json)));
    PartsAlike(Texts(ActorFields(a)), Texts(ContextFields(a)), Texts(ActorFields(b)), Texts(ContextFields(b)));
  }

  /** Exports are equal exactly for as many records that agree, one by one, in everything shown. */
  lemma ExportIdentifies(a: seq<Record>, b: seq<Record>, json: map<string, AttributeValue> -> string)
    ensures ExportCsv(a, json) == ExportCsv(b, json) <==>
            |a| == |b| && forall i | 0 <= i < |a| :: SameShown(a[i], b[i], json)
  {
    ExportReadsBack(a, json);
    ExportReadsBack(b, json);
    forall i | 0 <= i < |a| && 0 <= i < |b|
      ensures Texts(ToExport(a[i], json)) == Texts(ToExport(b[i], json)) <==> SameShown(a[i], b[i], json)
    {
      RowsAlike(a[i], b[i], json);
    }
    hide ToExport, Texts, SameShown, Document, ReadDocument, EXPORT_FIELDS;
    var rowsA, rowsB := ExportRows(a, json), ExportRows(b, json);
    assert rowsA == ([EXPORT_FIELDS] + rowsA)[1..] && rowsB == ([EXPORT_FIELDS] + rowsB)[1..];
    if ExportCsv(a, json) == ExportCsv(b, json) {
      assert rowsA == rowsB && |rowsA| == |a| && |rowsB| == |b|;
      forall i | 0 <= i < |a| ensures SameShown(a[i], b[i], json) {
        assert rowsA[i] == rowsB[i];
      }
    }
    if |a| == |b| && forall i | 0 <= i < |a| :: SameShown(a[i], b[i], json) {
      assert rowsA == rowsB;
    }
  }
}
