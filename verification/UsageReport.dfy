/** Signed usage reports: the text a signature covers says exactly one thing. */
module UsageReports {

  const DOMAIN := "ARFL_USAGE_REPORT_V1"

  datatype UsageReport = UsageReport(sessionID: string, ticketID: string, nodePubkey: string, nodeRole: string,
                                     bytesReported: int, reportedAt: string)

  // Decimal numbers.

  function DigitChar(d: nat): char
    requires d < 10
  {
    ('0' as int + d) as char
  }

  predicate IsDigit(c: char) { '0' <= c <= '9' }

  function Decimal(n: nat): string {
    if n < 10 then [DigitChar(n)] else Decimal(n / 10) + [DigitChar(n % 10)]
  }

  function Number(s: string): nat {
    if s == [] then 0
    else
      var last := s[|s| - 1];
      Number(s[..|s| - 1]) * 10 + if IsDigit(last) then last as int - '0' as int else 0
  }

  lemma {:induction false} NumberOfDecimal(n: nat)
    ensures Number(Decimal(n)) == n
    ensures |Decimal(n)| > 0 && forall i :: 0 <= i < |Decimal(n)| ==> IsDigit(Decimal(n)[i])
  {
    if n < 10 {
      assert Number([]) == 0;
    } else {
      NumberOfDecimal(n / 10);
      assert Decimal(n)[..|Decimal(n)| - 1] == Decimal(n / 10);
    }
  }

  function Signed(i: int): string { if i < 0 then "-" + Decimal(-i) else Decimal(i) }

  function Value(s: string): int { if s != [] && s[0] == '-' then 0 - Number(s[1..]) as int else Number(s) as int }

  lemma {:induction false} ValueOfSigned(i: int)
    ensures Value(Signed(i)) == i
  {
    if i < 0 {
      NumberOfDecimal(-i);
      assert Signed(i)[1..] == Decimal(-i);
    } else {
      NumberOfDecimal(i);
      assert IsDigit(Decimal(i)[0]);
    }
  }

  // Length-prefixed fields.

  /** A field with its length in front of it. */
  function Prefixed(f: string): string { "|" + Decimal(|f|) + ":" + f }

  function Joined(fields: seq<string>): string {
    if fields == [] then [] else Prefixed(fields[0]) + Joined(fields[1..])
  }

  /** How many characters the text starts with that are digits. */
  function Digits(s: string): (n: nat)
    ensures n <= |s|
  {
    if s == [] || !IsDigit(s[0]) then 0 else 1 + Digits(s[1..])
  }

  datatype Parsed = Malformed | Fields(fields: seq<string>)

  /** Reads one field after another, each as long as its prefix says, whatever it contains. */
  function Parse(s: string): Parsed
    decreases |s|
  {
    if s == [] then Fields([])
    else if s[0] != '|' then Malformed
    else
      var d := Digits(s[1..]);
      if 1 + d >= |s| || s[1 + d] != ':' then Malformed
      else
        var from := 2 + d;
        var to := from + Number(s[1..1 + d]);
        if to > |s| then Malformed
        else
          var rest := Parse(s[to..]);
          if rest.Malformed? then Malformed else Fields([s[from..to]] + rest.fields)
  }

  lemma {:induction false} DigitsEnd(digits: string, rest: string)
    requires forall i :: 0 <= i < |digits| ==> IsDigit(digits[i])
    requires rest != [] && !IsDigit(rest[0])
    ensures Digits(digits + rest) == |digits|
  {
    if digits == [] {
      assert digits + rest == rest;
    } else {
      assert (digits + rest)[1..] == digits[1..] + rest;
      DigitsEnd(digits[1..], rest);
    }
  }

  /** Whatever a field contains, its length tells where it ends. */
  lemma {:induction false} ParseOne(f: string, rest: string)
    ensures Parse(Prefixed(f) + rest)
            == (var more := Parse(rest); if more.Malformed? then Malformed else Fields([f] + more.fields))
  {
    var len := Decimal(|f|);
    var s := Prefixed(f) + rest;
    var tail := ":" + f + rest;
    NumberOfDecimal(|f|);
    assert s[1..] == len + tail;
    DigitsEnd(len, tail);
    var d := |len|;
    assert s[1..1 + d] == len && s[1 + d] == ':';
    assert s[2 + d..2 + d + |f|] == f && s[2 + d + |f|..] == rest;
  }

  lemma {:induction false} ParseJoined(fields: seq<string>)
    ensures Parse(Joined(fields)) == Fields(fields)
  {
    if fields != [] {
      ParseOne(fields[0], Joined(fields[1..]));
      ParseJoined(fields[1..]);
      assert fields == [fields[0]] + fields[1..];
    }
  }

  function FieldsOf(r: UsageReport): seq<string> {
    [r.sessionID, r.ticketID, r.nodePubkey, r.nodeRole, Signed(r.bytesReported), r.reportedAt]
  }

  /** The text a signature covers. */
  function PayloadOf(r: UsageReport): string { DOMAIN + Joined(FieldsOf(r)) }

  datatype Reading = Unreadable | Report(report: UsageReport)

  /** Reads a report back from the text it was signed as. */
  function ReadPayload(s: string): Reading {
    if |s| < |DOMAIN| || s[..|DOMAIN|] != DOMAIN then Unreadable
    else
      var p := Parse(s[|DOMAIN|..]);
      if p.Malformed? || |p.fields| != 6 then Unreadable
      else
        var f := p.fields;
        Report(UsageReport(f[0], f[1], f[2], f[3], Value(f[4]), f[5]))
  }

  /** The signed text determines the report, for arbitrary fields. */
  lemma {:induction false} PayloadReadsBack(r: UsageReport)
    ensures ReadPayload(PayloadOf(r)) == Report(r)
  {
    ParseJoined(FieldsOf(r));
    ValueOfSigned(r.bytesReported);
    assert PayloadOf(r)[|DOMAIN|..] == Joined(FieldsOf(r));
    assert PayloadOf(r)[..|DOMAIN|] == DOMAIN;
  }

  /** Two reports share a signed text only if they agree in all six fields. */
  lemma {:induction false} PayloadInjective(a: UsageReport, b: UsageReport)
    requires PayloadOf(a) == PayloadOf(b)
    ensures a == b
  {
    PayloadReadsBack(a);
    PayloadReadsBack(b);
  }

  method Payload(r: UsageReport) returns (text: string)
    ensures text == PayloadOf(r)
    ensures ReadPayload(text) == Report(r)
  {
    var fields := FieldsOf(r);
    text := DOMAIN;
    for i := 0 to |fields|
      invariant text + Joined(fields[i..]) == PayloadOf(r)
    {
      assert fields[i..][0] == fields[i] && fields[i..][1..] == fields[i + 1..];
      text := text + ("|" + Decimal(|fields[i]|) + ":" + fields[i]);
    }
    PayloadReadsBack(r);
  }

  // What a verified signature vouches for.

  /** Everything a key holder ever signed; an ideal signature verifies for nothing else. */
  datatype Signing = Signing(pubkey: string, text: string, signature: string)

  /** A timestamp once parsed, in seconds. */
  datatype Time = NotATime | Time(at: int)

  /** Seconds a report may lie in the future. */
  const SKEW := 30

  /** The checks in their order. */
  method Verify(r: UsageReport, signature: string, reportedAt: Time, now: int, signings: set<Signing>)
    returns (ok: bool)
    ensures ok
            <==> r.sessionID != "" && r.ticketID != "" && r.nodePubkey != "" && r.nodeRole in {"entry", "exit"}
                 && r.bytesReported >= 0 && r.reportedAt != "" && signature != ""
                 && reportedAt.Time? && reportedAt.at <= now + SKEW
                 && Signing(r.nodePubkey, PayloadOf(r), signature) in signings
  {
    if r.sessionID == "" { return false; }
    if r.ticketID == "" { return false; }
    if r.nodePubkey == "" { return false; }
    if r.nodeRole != "entry" && r.nodeRole != "exit" { return false; }
    if r.bytesReported < 0 { return false; }
    if r.reportedAt == "" { return false; }
    if signature == "" { return false; }
    if reportedAt.NotATime? { return false; }
    if reportedAt.at > now + SKEW { return false; }
    var text := Payload(r);
    return Signing(r.nodePubkey, text, signature) in signings;
  }

  /** A report that verifies under what its node signed is one of the reports that node signed, field for field. */
  lemma {:induction false} VerifiedMeansSigned(r: UsageReport, signature: string, reports: set<(UsageReport, string)>)
    requires Signing(r.nodePubkey, PayloadOf(r), signature)
             in (set s | s in reports :: Signing(s.0.nodePubkey, PayloadOf(s.0), s.1))
    ensures (r, signature) in reports
  {
    var signing := Signing(r.nodePubkey, PayloadOf(r), signature);
    var s :| s in reports && Signing(s.0.nodePubkey, PayloadOf(s.0), s.1) == signing;
    PayloadInjective(s.0, r);
    assert s == (r, signature);
  }
}
