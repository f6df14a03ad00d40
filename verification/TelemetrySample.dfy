/** The printer of src/TelemetryManager/telemetry_manager.cpp, and what can be read back of what it prints. */
module TelemetrySamples {
  import opened Basics

  // The four numbers are kept as the text the stream prints for them.
  datatype Sample = Sample(vehicleId: string, timestamp: string, speed: string, rpm: string, battery: string,
                           fuel: string)

  // The readings every sample carries, as the stream prints them.
  const SAMPLE_SPEED := "80"
  const SAMPLE_RPM := "2500"
  const SAMPLE_BATTERY := "12.6"
  const SAMPLE_FUEL := "70"

  function Serialize(s: Sample): string {
    "{\"vehicle_id\":\"" + s.vehicleId + "\",\"timestamp\":\"" + s.timestamp
    + "\",\"speed\":" + s.speed + ",\"rpm\":" + s.rpm + ",\"battery\":" + s.battery + ",\"fuel\":" + s.fuel + "}"
  }

  // ----- Two readers of such a text -----

  // `Json` reads strings and numbers as RFC 8259 has them (sections 7 and 6); `Raw` takes whatever stands before the
  // delimiter.
  datatype Reader = Json | Raw

  datatype Field = Field(value: string, rest: string)

  function Skip(text: string, expected: string): Option<string> {
    if expected <= text then Some(text[|expected|..]) else None
  }

  // The text up to the first `stop`, and what follows it.
  function ReadUntil(text: string, stop: char): Option<Field> {
    if text == "" then None
    else if text[0] == stop then Some(Field("", text[1..]))
    else Cons(text[0], ReadUntil(text[1..], stop))
  }

  function Cons(c: char, f: Option<Field>): Option<Field> {
    if f.None? then None else Some(Field([c] + f.value.value, f.value.rest))
  }

  // An escape sequence: the character it stands for, and how much text it takes.
  datatype Escape = Escape(c: char, size: nat)

  function HexDigit(c: char): (r: Option<int>)
    ensures r.Some? ==> 0 <= r.value < 16
  {
    if '0' <= c <= '9' then Some(c as int - '0' as int)
    else if 'a' <= c <= 'f' then Some(c as int - 'a' as int + 10)
    else if 'A' <= c <= 'F' then Some(c as int - 'A' as int + 10)
    else None
  }

  // The four hexadecimal digits of a code unit at position `at`.
  function CodeUnit(text: string, at: nat): (r: Option<int>)
    ensures r.Some? ==> 0 <= r.value < 0x1_0000
    ensures r.Some? ==> at + 6 <= |text| && text[at + 1] == 'u' && forall i :: at < i < at + 6 ==> text[i] != '\"'
  {
    if at + 6 <= |text| && text[at] == '\\' && text[at + 1] == 'u' then
      var a, b, c, d :=
        HexDigit(text[at + 2]), HexDigit(text[at + 3]), HexDigit(text[at + 4]), HexDigit(text[at + 5]);
      if a.Some? && b.Some? && c.Some? && d.Some?
      then Some(((a.value * 16 + b.value) * 16 + c.value) * 16 + d.value)
      else None
    else None
  }

  // A code unit stands for itself, or is the first of a surrogate pair.
  function ReadUnicode(text: string): (r: Option<Escape>)
    ensures r.Some? ==> 2 <= r.value.size <= |text| && forall i :: 1 <= i < r.value.size ==> text[i] != '\"'
  {
    match CodeUnit(text, 0)
    case None => None
    case Some(n) =>
      if n < 0xD800 || 0xE000 <= n then Some(Escape(n as char, 6))
      else
        match CodeUnit(text, 6)
        case None => None
        case Some(m) =>
          if n < 0xDC00 <= m < 0xE000
          then Some(Escape((0x1_0000 + (n - 0xD800) * 0x400 + (m - 0xDC00)) as char, 12))
          else None
  }

  function Simple(c: char): Option<char> {
    match c
    case '\"' => Some('\"')
    case '\\' => Some('\\')
    case '/' => Some('/')
    case 'b' => Some('\U{8}')
    case 'f' => Some('\U{C}')
    case 'n' => Some('\n')
    case 'r' => Some('\r')
    case 't' => Some('\t')
    case _ => None
  }

  function ReadEscape(text: string): (r: Option<Escape>)
    ensures r.Some? ==> 2 <= r.value.size <= |text|
  {
    if |text| < 2 then None
    else if text[1] == 'u' then ReadUnicode(text)
    else if Simple(text[1]).Some? then Some(Escape(Simple(text[1]).value, 2))
    else None
  }

  // The rest of a JSON string, from behind its opening quote.
  function ReadString(text: string): Option<Field>
    decreases |text|
  {
    if text == "" then None
    else if text[0] == '\"' then Some(Field("", text[1..]))
    else if text[0] == '\\' then
      match ReadEscape(text)
      case None => None
      case Some(e) => Cons(e.c, ReadString(text[e.size..]))
    else if text[0] < ' ' then None
    else Cons(text[0], ReadString(text[1..]))
  }

  function Digits(t: string): (n: nat)
    ensures n <= |t| && forall i :: 0 <= i < n ==> '0' <= t[i] <= '9'
  {
    if t != "" && '0' <= t[0] <= '9' then 1 + Digits(t[1..]) else 0
  }

  // A number is an optional minus, an integer part without leading zeros, and optional fraction and exponent.
  predicate IsNumber(t: string) {
    if t != "" && t[0] == '-' then IsUnsigned(t[1..]) else IsUnsigned(t)
  }

  predicate IsUnsigned(t: string) {
    var n := Digits(t);
    n > 0 && (t[0] == '0' ==> n == 1) && IsFraction(t[n..])
  }

  predicate IsFraction(t: string) {
    if t != "" && t[0] == '.' then Digits(t[1..]) > 0 && IsExponent(t[1..][Digits(t[1..])..]) else IsExponent(t)
  }

  predicate IsExponent(t: string) {
    t == "" || ((t[0] == 'e' || t[0] == 'E') && IsSignedDigits(t[1..]))
  }

  predicate IsSignedDigits(t: string) {
    var d := if t != "" && (t[0] == '+' || t[0] == '-') then t[1..] else t;
    d != "" && Digits(d) == |d|
  }

  function ReadQuoted(r: Reader, text: string): Option<Field> {
    if r.Json? then ReadString(text) else ReadUntil(text, '\"')
  }

  function ReadNumber(r: Reader, text: string, stop: char): Option<Field> {
    var f := ReadUntil(text, stop);
    if f.Some? && r.Json? && !IsNumber(f.value.value) then None else f
  }

  datatype Kind = Quoted | Number(stop: char)

  function Read(r: Reader, k: Kind, text: string): Option<Field> {
    match k
    case Quoted => ReadQuoted(r, text)
    case Number(stop) => ReadNumber(r, text, stop)
  }

  function ReadField(r: Reader, k: Kind, text: string, expected: string): Option<Field> {
    match Skip(text, expected)
    case None => None
    case Some(rest) => Read(r, k, rest)
  }

  // The members of the object, in the order the printer gives them.
  function Parse(r: Reader, text: string): Option<Sample> {
    match ReadField(r, Quoted, text, "{\"vehicle_id\":\"")
    case None => None
    case Some(id) =>
      match ReadField(r, Quoted, id.rest, ",\"timestamp\":\"")
      case None => None
      case Some(at) =>
        match ReadField(r, Number(','), at.rest, ",\"speed\":")
        case None => None
        case Some(speed) =>
          match ReadField(r, Number(','), speed.rest, "\"rpm\":")
          case None => None
          case Some(rpm) =>
            match ReadField(r, Number(','), rpm.rest, "\"battery\":")
            case None => None
            case Some(battery) =>
              match ReadField(r, Number('}'), battery.rest, "\"fuel\":")
              case None => None
              case Some(fuel) =>
                if fuel.rest != "" then None
                else Some(Sample(id.value, at.value, speed.value, rpm.value, battery.value, fuel.value))
  }

  // ----- What each reader can take as it stands, nothing being escaped -----

  // For JSON a string without quotes, backslashes and control characters, and a number; for the raw reader anything
  // without the delimiter.
  predicate Takes(r: Reader, k: Kind, v: string) {
    match k
    case Quoted => if r.Json? then forall c <- v :: c != '\"' && c != '\\' && c >= ' ' else '\"' !in v
    case Number(stop) => if r.Json? then IsNumber(v) else stop !in v
  }

  predicate Plain(r: Reader, s: Sample) {
    && Takes(r, Quoted, s.vehicleId) && Takes(r, Quoted, s.timestamp)
    && Takes(r, Number(','), s.speed) && Takes(r, Number(','), s.rpm) && Takes(r, Number(','), s.battery)
    && Takes(r, Number('}'), s.fuel)
  }

  // What ends the field.
  function Stop(k: Kind): char {
    if k.Quoted? then '\"' else k.stop
  }

  predicate Delimits(k: Kind) {
    k.Quoted? || k.stop == ',' || k.stop == '}'
  }

  lemma {:induction false} ReadUntilReads(value: string, stop: char, rest: string)
    requires stop !in value
    ensures ReadUntil(value + [stop] + rest, stop) == Some(Field(value, rest))
  {
    var text := value + [stop] + rest;
    if value == "" {
      assert text[1..] == rest;
    } else {
      assert text[1..] == value[1..] + [stop] + rest;
      ReadUntilReads(value[1..], stop, rest);
      assert [text[0]] + value[1..] == value;
    }
  }

  // A field that is read never holds its delimiter.
  lemma {:induction false} ReadUntilStops(text: string, stop: char)
    ensures ReadUntil(text, stop).Some? ==> stop !in ReadUntil(text, stop).value.value
  {
    if text != "" && text[0] != stop {
      ReadUntilStops(text[1..], stop);
    }
  }

  lemma {:induction false} ReadStringReads(value: string, rest: string)
    requires Takes(Json, Quoted, value)
    ensures ReadString(value + ['\"'] + rest) == Some(Field(value, rest))
  {
    var text := value + ['\"'] + rest;
    if value == "" {
      assert text[1..] == rest;
    } else {
      assert text[1..] == value[1..] + ['\"'] + rest;
      assert value[0] in value && forall c <- value[1..] :: c in value;
      ReadStringReads(value[1..], rest);
      assert [text[0]] + value[1..] == value;
    }
  }

  // Signs, points and exponent letters: what a number is made of besides digits.
  predicate InNumbers(c: char) {
    '0' <= c <= '9' || c in "-+.eE"
  }

  lemma NumbersHoldNoDelimiter(t: string, i: nat)
    requires IsNumber(t) && i < |t|
    ensures InNumbers(t[i])
  {
    var u := if t[0] == '-' then t[1..] else t;
    var k := i - (|t| - |u|);
    if k >= 0 {
      assert t[i] == u[k];
      var n := Digits(u);
      if k >= n {
        FractionsHoldNoDelimiter(u[n..], k - n);
      }
    }
  }

  lemma FractionsHoldNoDelimiter(t: string, i: nat)
    requires IsFraction(t) && i < |t|
    ensures InNumbers(t[i])
  {
    if t[0] == '.' {
      var n := Digits(t[1..]);
      if i > n {
        ExponentsHoldNoDelimiter(t[1..][n..], i - 1 - n);
      } else if i > 0 {
        assert t[i] == t[1..][i - 1];
      }
    } else {
      ExponentsHoldNoDelimiter(t, i);
    }
  }

  lemma ExponentsHoldNoDelimiter(t: string, i: nat)
    requires IsExponent(t) && i < |t|
    ensures InNumbers(t[i])
  {
    if i > 0 {
      var u := t[1..];
      var d := if u[0] == '+' || u[0] == '-' then u[1..] else u;
      var k := i - (|t| - |d|);
      if k >= 0 {
        assert t[i] == d[k];
      }
    }
  }

  lemma {:induction false} AllDigits(t: string)
    requires forall i :: 0 <= i < |t| ==> '0' <= t[i] <= '9'
    ensures Digits(t) == |t|
  {
    if t != "" {
      AllDigits(t[1..]);
    }
  }

  lemma WholeNumber(t: string)
    requires t != "" && t[0] != '0' && forall i :: 0 <= i < |t| ==> '0' <= t[i] <= '9'
    ensures IsNumber(t)
  {
    AllDigits(t);
    assert t[|t|..] == "";
  }

  lemma OneDecimal(t: string)
    requires |t| == 4 && t[0] != '0' && t[2] == '.'
    requires '0' <= t[0] <= '9' && '0' <= t[1] <= '9' && '0' <= t[3] <= '9'
    ensures IsNumber(t)
  {
    var u := t[2..];
    assert u[1..] == [t[3]] && t[1..][1..] == u;
    AllDigits([t[3]]);
    assert Digits(t) == 2;
    assert u[1..][1..] == "";
  }

  // A number is taken by both readers.
  lemma NumberTaken(t: string)
    requires IsNumber(t)
    ensures forall r: Reader :: Takes(r, Number(','), t) && Takes(r, Number('}'), t)
  {
    forall i | 0 <= i < |t|
      ensures t[i] != ',' && t[i] != '}'
    {
      NumbersHoldNoDelimiter(t, i);
    }
  }

  predicate HasReadings(s: Sample) {
    s.speed == SAMPLE_SPEED && s.rpm == SAMPLE_RPM && s.battery == SAMPLE_BATTERY && s.fuel == SAMPLE_FUEL
  }

  predicate NumbersAreNumbers(s: Sample) {
    IsNumber(s.speed) && IsNumber(s.rpm) && IsNumber(s.battery) && IsNumber(s.fuel)
  }

  lemma ReadingsAreNumbers(s: Sample)
    requires HasReadings(s)
    ensures NumbersAreNumbers(s)
  {
    WholeNumber(s.speed);
    WholeNumber(s.rpm);
    OneDecimal(s.battery);
    WholeNumber(s.fuel);
  }

  lemma NumbersAreTaken(s: Sample, r: Reader)
    requires NumbersAreNumbers(s)
    ensures Plain(r, s) <==> Takes(r, Quoted, s.vehicleId) && Takes(r, Quoted, s.timestamp)
  {
    NumberTaken(s.speed);
    NumberTaken(s.rpm);
    NumberTaken(s.battery);
    NumberTaken(s.fuel);
  }

  // The demo readings never stand in the way of reading a sample back.
  lemma ReadingsAreTaken(s: Sample, r: Reader)
    requires HasReadings(s)
    ensures Plain(r, s) <==> Takes(r, Quoted, s.vehicleId) && Takes(r, Quoted, s.timestamp)
  {
    ReadingsAreNumbers(s);
    NumbersAreTaken(s, r);
  }

  lemma TakesReads(r: Reader, k: Kind, v: string, rest: string)
    requires Takes(r, k, v) && Delimits(k)
    ensures Read(r, k, v + [Stop(k)] + rest) == Some(Field(v, rest))
  {
    if r.Json? && k.Quoted? {
      ReadStringReads(v, rest);
    } else {
      if r.Json? {
        forall i | 0 <= i < |v|
          ensures v[i] != k.stop
        {
          NumbersHoldNoDelimiter(v, i);
        }
      }
      ReadUntilReads(v, Stop(k), rest);
    }
  }

  // ----- And nothing else comes back as it was -----

  // Where the JSON reader comes to the first quote of a text: it stops there, and if it used up one character of text
  // for each it read so far these are the same; or the quote is the end of an escape, and by then the reader lags.
  predicate AtQuote(text: string, q: nat, v: string, j: nat)
    requires q <= |text|
  {
    || (|v| <= q && (|v| == q ==> v == text[..q] && Takes(Json, Quoted, v)))
    || (j < q && j < |v| && v[j] == '\"')
  }

  lemma {:induction false} AtTheFirstQuote(text: string, q: nat) returns (j: nat)
    requires q < |text| && text[q] == '\"' && '\"' !in text[..q]
    requires ReadString(text).Some?
    ensures AtQuote(text, q, ReadString(text).value.value, j)
    decreases |text|
  {
    j := 0;
    if q > 0 {
      assert text[0] in text[..q];
      if text[0] != '\\' {
        QuoteFurtherOn(text, q, 1);
        j := AtTheFirstQuote(text[1..], q - 1);
        PastOneCharacter(text, q, 1, text[0], ReadString(text[1..]).value.value, j);
        j := j + 1;
      } else {
        var e := ReadEscape(text).value;
        if e.size <= q {
          QuoteFurtherOn(text, q, e.size);
          j := AtTheFirstQuote(text[e.size..], q - e.size);
          PastOneCharacter(text, q, e.size, e.c, ReadString(text[e.size..]).value.value, j);
          j := j + 1;
        } else {
          QuoteInEscape(text, q);
        }
      }
    }
  }

  // One more character read, `c`, from the first `n` of the text.
  lemma PastOneCharacter(text: string, q: nat, n: nat, c: char, v: string, j: nat)
    requires 0 < n <= q < |text| && AtQuote(text[n..], q - n, v, j)
    requires n == 1 ==> c == text[0] && ' ' <= c && c != '\"' && c != '\\'
    ensures AtQuote(text, q, [c] + v, j + 1)
  {
    if |v| == q - 1 && n == 1 && v == text[1..][..q - 1] {
      assert [c] + v == text[..q];
    }
  }

  lemma QuoteFurtherOn(text: string, q: nat, n: nat)
    requires 0 < n <= q < |text| && text[q] == '\"' && '\"' !in text[..q]
    ensures text[n..][q - n] == '\"' && '\"' !in text[n..][..q - n]
    ensures text[..q] == text[..n] + text[n..][..q - n]
  {
    assert text[n..][..q - n] == text[n..q];
    assert forall c <- text[n..q] :: c in text[..q];
  }

  lemma QuoteInEscape(text: string, q: nat)
    requires 0 < q < |text| && text[q] == '\"' && ReadEscape(text).Some? && q < ReadEscape(text).value.size
    ensures ReadEscape(text).value.c == '\"'
  {
  }

  lemma {:induction false} FirstQuote(v: string) returns (q: nat)
    ensures q <= |v| && '\"' !in v[..q] && (q < |v| ==> v[q] == '\"')
  {
    q := 0;
    while q < |v| && v[q] != '\"'
      invariant q <= |v| && '\"' !in v[..q]
    {
      q := q + 1;
    }
  }

  lemma ReadBackIsTaken(r: Reader, k: Kind, v: string, rest: string)
    requires Read(r, k, v + [Stop(k)] + rest).Some? && Read(r, k, v + [Stop(k)] + rest).value.value == v
    ensures Takes(r, k, v)
  {
    var text := v + [Stop(k)] + rest;
    if r.Json? && k.Quoted? {
      var q := FirstQuote(v);
      assert text[q] == '\"' && text[..q] == v[..q];
      assert forall i :: 0 <= i < q ==> v[i] == v[..q][i];
      var _ := AtTheFirstQuote(text, q);
    } else {
      ReadUntilStops(text, Stop(k));
    }
  }

  // ----- The whole text -----

  // Moving one piece of the printed text to where the reader cuts it.
  lemma Regroup(front: string, stop: char, key: string, value: string, end: char, rest: string)
    ensures front + ([stop] + key) + value + ([end] + rest) == front + ([stop] + (key + (value + [end] + rest)))
  {
    assert ([stop] + key) + value + ([end] + rest) == [stop] + (key + (value + [end] + rest));
  }

  // The printed text up to the speed.
  function Front(s: Sample): string {
    "{\"vehicle_id\":\"" + s.vehicleId + "\",\"timestamp\":\"" + s.timestamp + "\",\"speed\":" + s.speed
  }

  // What is left of the printed text after the rpm, the speed, and so on.
  function Tail6(s: Sample): string {
    "\"fuel\":" + (s.fuel + ['}'] + "")
  }

  function Tail5(s: Sample): string {
    "\"battery\":" + (s.battery + [','] + Tail6(s))
  }

  function Tail4(s: Sample): string {
    "\"rpm\":" + (s.rpm + [','] + Tail5(s))
  }

  function Tail3(s: Sample): string {
    ",\"speed\":" + (s.speed + [','] + Tail4(s))
  }

  function Tail2(s: Sample): string {
    ",\"timestamp\":\"" + (s.timestamp + ['\"'] + Tail3(s))
  }

  lemma BackRegrouped(s: Sample, t6: string, t5: string, t4: string)
    requires t6 == "\"fuel\":" + (s.fuel + ['}'] + "")
    requires t5 == "\"battery\":" + (s.battery + [','] + t6)
    requires t4 == "\"rpm\":" + (s.rpm + [','] + t5)
    ensures Serialize(s) == Front(s) + ([','] + t4)
  {
    var c4 := Front(s) + ",\"rpm\":" + s.rpm;
    var c5 := c4 + ",\"battery\":" + s.battery;
    assert Serialize(s) == c5 + ([','] + t6) by {
      assert ",\"fuel\":" == [','] + "\"fuel\":" && "}" == ['}'] + "";
      Regroup(c5, ',', "\"fuel\":", s.fuel, '}', "");
    }
    assert c5 + ([','] + t6) == c4 + ([','] + t5) by {
      assert ",\"battery\":" == [','] + "\"battery\":";
      Regroup(c4, ',', "\"battery\":", s.battery, ',', t6);
    }
    assert c4 + ([','] + t5) == Front(s) + ([','] + t4) by {
      assert ",\"rpm\":" == [','] + "\"rpm\":";
      Regroup(Front(s), ',', "\"rpm\":", s.rpm, ',', t5);
    }
  }

  lemma FrontRegrouped(s: Sample, t4: string, t3: string, t2: string)
    requires t3 == ",\"speed\":" + (s.speed + [','] + t4)
    requires t2 == ",\"timestamp\":\"" + (s.timestamp + ['\"'] + t3)
    ensures Front(s) + ([','] + t4) == "{\"vehicle_id\":\"" + (s.vehicleId + ['\"'] + t2)
  {
    var c1 := "{\"vehicle_id\":\"" + s.vehicleId;
    var c2 := c1 + "\",\"timestamp\":\"" + s.timestamp;
    assert Front(s) + ([','] + t4) == c2 + (['\"'] + t3) by {
      assert "\",\"speed\":" == ['\"'] + ",\"speed\":";
      Regroup(c2, '\"', ",\"speed\":", s.speed, ',', t4);
    }
    assert c2 + (['\"'] + t3) == c1 + (['\"'] + t2) by {
      assert "\",\"timestamp\":\"" == ['\"'] + ",\"timestamp\":\"";
      Regroup(c1, '\"', ",\"timestamp\":\"", s.timestamp, '\"', t3);
    }
  }

  lemma Regrouped(s: Sample)
    ensures Serialize(s) == "{\"vehicle_id\":\"" + (s.vehicleId + ['\"'] + Tail2(s))
  {
    BackRegrouped(s, Tail6(s), Tail5(s), Tail4(s));
    FrontRegrouped(s, Tail4(s), Tail3(s), Tail2(s));
  }

  lemma ReadsField(r: Reader, k: Kind, expected: string, v: string, rest: string, text: string)
    requires Takes(r, k, v) && Delimits(k) && text == expected + (v + [Stop(k)] + rest)
    ensures ReadField(r, k, text, expected) == Some(Field(v, rest))
  {
    assert text[|expected|..] == v + [Stop(k)] + rest;
    TakesReads(r, k, v, rest);
  }

  lemma PlainReadsBack(r: Reader, s: Sample)
    requires Plain(r, s)
    ensures Parse(r, Serialize(s)) == Some(s)
  {
    Regrouped(s);
    ReadsField(r, Number('}'), "\"fuel\":", s.fuel, "", Tail6(s));
    ReadsField(r, Number(','), "\"battery\":", s.battery, Tail6(s), Tail5(s));
    ReadsField(r, Number(','), "\"rpm\":", s.rpm, Tail5(s), Tail4(s));
    ReadsField(r, Number(','), ",\"speed\":", s.speed, Tail4(s), Tail3(s));
    ReadsField(r, Quoted, ",\"timestamp\":\"", s.timestamp, Tail3(s), Tail2(s));
    ReadsField(r, Quoted, "{\"vehicle_id\":\"", s.vehicleId, Tail2(s), Serialize(s));
  }

  // A field that came back as it was printed was one the reader takes, and the reader is now right behind it.
  lemma FieldCameBack(r: Reader, expected: string, v: string, rest: string, text: string)
    requires text == expected + (v + ['\"'] + rest)
    requires ReadField(r, Quoted, text, expected).Some? && ReadField(r, Quoted, text, expected).value.value == v
    ensures Takes(r, Quoted, v) && ReadField(r, Quoted, text, expected).value.rest == rest
  {
    assert text[|expected|..] == v + ['\"'] + rest;
    ReadBackIsTaken(r, Quoted, v, rest);
    TakesReads(r, Quoted, v, rest);
  }

  lemma NumberIsTaken(r: Reader, text: string, expected: string, stop: char)
    ensures var f := ReadField(r, Number(stop), text, expected); f.Some? ==> Takes(r, Number(stop), f.value.value)
  {
    if expected <= text {
      ReadUntilStops(text[|expected|..], stop);
    }
  }

  lemma ReadBackIsPlain(r: Reader, s: Sample)
    requires Parse(r, Serialize(s)) == Some(s)
    ensures Plain(r, s)
  {
    Regrouped(s);
    FieldCameBack(r, "{\"vehicle_id\":\"", s.vehicleId, Tail2(s), Serialize(s));
    FieldCameBack(r, ",\"timestamp\":\"", s.timestamp, Tail3(s), Tail2(s));
    NumberIsTaken(r, Tail3(s), ",\"speed\":", ',');
    var speed := ReadField(r, Number(','), Tail3(s), ",\"speed\":").value;
    NumberIsTaken(r, speed.rest, "\"rpm\":", ',');
    var rpm := ReadField(r, Number(','), speed.rest, "\"rpm\":").value;
    NumberIsTaken(r, rpm.rest, "\"battery\":", ',');
    var battery := ReadField(r, Number(','), rpm.rest, "\"battery\":").value;
    NumberIsTaken(r, battery.rest, "\"fuel\":", '}');
  }

  // A sample is read back as itself exactly when it is plain for the reader. For a JSON reader: if and only if
  // identifier and timestamp hold no quote, no backslash and no control character, and the numbers are JSON numbers.
  lemma ReadsBackIffPlain(r: Reader, s: Sample)
    ensures Parse(r, Serialize(s)) == Some(s) <==> Plain(r, s)
  {
    if Plain(r, s) {
      PlainReadsBack(r, s);
    } else if Parse(r, Serialize(s)) == Some(s) {
      ReadBackIsPlain(r, s);
    }
  }

  // So the printer is injective on samples whose strings hold no quote and whose numbers hold no delimiter.
  lemma PlainSamplesPrintDifferently(s: Sample, t: Sample)
    requires Plain(Raw, s) && Plain(Raw, t) && Serialize(s) == Serialize(t)
    ensures s == t
  {
    PlainReadsBack(Raw, s);
    PlainReadsBack(Raw, t);
  }

  // ----- What goes wrong otherwise -----

  // A quote in an identifier can make two samples print alike.
  lemma QuotedSamplesCanCollide(speed: string, rpm: string, battery: string, fuel: string)
    ensures var s := Sample("A", "B\",\"timestamp\":\"C", speed, rpm, battery, fuel);
            var t := Sample("A\",\"timestamp\":\"B", "C", speed, rpm, battery, fuel);
            s != t && Serialize(s) == Serialize(t)
  {
    var mid := "\",\"timestamp\":\"";
    assert "A" + mid + ("B" + mid + "C") == ("A" + mid + "B") + mid + "C";
    var open := "{\"vehicle_id\":\"";
    assert open + "A" + mid + ("B" + mid + "C") == open + ("A" + mid + "B") + mid + "C";
    assert "B\",\"timestamp\":\"C" == "B" + mid + "C" && "A\",\"timestamp\":\"B" == "A" + mid + "B";
    assert |"A"| != |"A" + mid + "B"|;
  }

  lemma ReadsOnPastEscapedQuote(tail: string)
    ensures ReadString(['\\', '\"', ',', '\"'] + tail) == Some(Field("\",", tail))
  {
    var text := ['\\', '\"', ',', '\"'] + tail;
    assert ReadEscape(text) == Some(Escape('\"', 2));
    assert text[2..] == "," + ['\"'] + tail;
    ReadStringReads(",", tail);
    assert ['\"'] + "," == "\",";
  }

  // A backslash as identifier is no quote, and yet makes the text no JSON at all: it escapes the closing quote.
  lemma BackslashSpoilsTheText(s: Sample)
    requires s.vehicleId == "\\"
    ensures Parse(Json, Serialize(s)) == None
  {
    Regrouped(s);
    var head, tail := "{\"vehicle_id\":\"", "timestamp\":\"" + (s.timestamp + ['\"'] + Tail3(s));
    assert Tail2(s) == [',', '\"'] + tail;
    assert Serialize(s)[|head|..] == ['\\', '\"', ',', '\"'] + tail;
    ReadsOnPastEscapedQuote(tail);
    assert tail[0] == 't';
  }

  // And a NaN, which the stream prints as `nan`, is no JSON number.
  lemma NanIsNotReadBack(s: Sample)
    requires s.speed == "nan"
    ensures Parse(Json, Serialize(s)) != Some(s)
  {
    ReadsBackIffPlain(Json, s);
  }
}
