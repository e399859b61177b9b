/**
  Validation of the target list given on the command line: isValidIPv4 and
  parseIPs of main.go.
*/
module Targets {
  import opened Wrappers
  import opened GoStrings
  import opened GoStrconv

  /**
    isValidIPv4: the address splits on '.' into exactly four parts.  The loop
    over the parts is AllOctets.
  */
  predicate IsValidIPv4(ip: string)
  {
    var parts := Split(ip, '.');
    |parts| == 4 && AllOctets(parts)
  }

  /**
    The `range parts` loop of isValidIPv4: each part must read with Atoi and
    lie in 0..255; the first part that does not rejects the address.
  */
  predicate AllOctets(parts: seq<string>)
  {
    if |parts| == 0 then true
    else match Atoi(parts[0])
      case None => false
      case Some(i) => if i < 0 || i > 255 then false else AllOctets(parts[1..])
  }

  /** `d` without its leading zeros. */
  function StripZeros(d: string): (t: string)
    ensures |t| <= |d| && (|t| > 0 ==> t[0] != '0')
    ensures AllDigits(d) ==> AllDigits(t)
  {
    if |d| > 0 && d[0] == '0' then StripZeros(d[1..]) else d
  }

  /** A three-digit string that is not above "255", compared digit by digit. */
  predicate AtMost255(t: string)
    requires |t| == 3
  {
    t[0] < '2' || (t[0] == '2' && (t[1] < '5' || (t[1] == '5' && t[2] <= '5')))
  }

  /**
    The text of one accepted address part, as a grammar: an optional sign,
    at least one digit, the digits without leading zeros are at most two, or
    three not above 255, and a '-' only in front of zeros.
  */
  predicate OctetText(x: string)
  {
    var d := Unsigned(x);
    var t := StripZeros(d);
    && |d| > 0 && AllDigits(d)
    && (Negative(x) ==> |t| == 0)
    && (|t| <= 2 || (|t| == 3 && AtMost255(t)))
  }

  lemma {:induction false} StripZerosValue(d: string)
    requires AllDigits(d)
    ensures DecimalValue(StripZeros(d)) == DecimalValue(d)
    decreases |d|
  {
    if |d| > 0 && d[0] == '0' {
      StripZerosValue(d[1..]);
      LeadingZeroValue(d[1..]);
      assert "0" + d[1..] == d;
    }
  }

  lemma ValueOfThree(t: string)
    requires |t| == 3 && AllDigits(t)
    ensures DecimalValue(t) == 100 * DigitValue(t[0]) + 10 * DigitValue(t[1]) + DigitValue(t[2])
  {
    var t1 := t[..1];
    var t2 := t[..2];
    assert t1[..0] == "" && t1[0] == t[0];
    assert DecimalValue(t1) == DigitValue(t[0]);
    assert t2[..1] == t1 && t2[1] == t[1];
    assert DecimalValue(t2) == DecimalValue(t1) * 10 + DigitValue(t[1]);
    assert t[..|t| - 1] == t2;
    assert DecimalValue(t) == DecimalValue(t2) * 10 + DigitValue(t[2]);
  }

  /** Size of the value of a digit string that has no leading zero. */
  lemma SignificantValue(t: string)
    requires AllDigits(t) && (|t| > 0 ==> t[0] != '0')
    ensures |t| == 0 <==> DecimalValue(t) == 0
    ensures |t| <= 2 ==> DecimalValue(t) <= 99
    ensures |t| == 3 ==> (DecimalValue(t) <= 255 <==> AtMost255(t))
    ensures |t| >= 4 ==> DecimalValue(t) >= 1000
  {
    if |t| >= 1 {
      PrefixValue(t, 1);
      assert t[..1][..0] == "";
    }
    if |t| == 2 {
      assert t[..1][..0] == "";
    } else if |t| == 3 {
      ValueOfThree(t);
    } else if |t| >= 4 {
      var p := t[..4];
      PrefixValue(t, 4);
      assert p[..3] == t[..3];
      ValueOfThree(t[..3]);
    }
  }

  /** The grammar above is exactly what the Atoi-and-range test accepts. */
  lemma OctetTextIffAtoi(x: string)
    ensures OctetText(x) <==> (Atoi(x).Some? && 0 <= Atoi(x).value <= 255)
  {
    var d := Unsigned(x);
    if |d| > 0 && AllDigits(d) {
      var t := StripZeros(d);
      StripZerosValue(d);
      SignificantValue(t);
    }
  }

  /** The early-return loop accepts the parts exactly when every one is an OctetText. */
  lemma {:induction false} AllOctetsIff(parts: seq<string>)
    ensures AllOctets(parts) <==> forall i :: 0 <= i < |parts| ==> OctetText(parts[i])
  {
    if |parts| > 0 {
      OctetTextIffAtoi(parts[0]);
      AllOctetsIff(parts[1..]);
      assert forall i :: 1 <= i < |parts| ==> parts[i] == parts[1..][i - 1];
    }
  }

  /**
    isValidIPv4 accepts `ip` exactly when it has four '.'-separated parts,
    each an optional sign and at least one digit with value 0..255.
  */
  lemma ValidIPv4Iff(ip: string)
    ensures IsValidIPv4(ip) <==>
              var parts := Split(ip, '.');
              |parts| == 4 && forall i :: 0 <= i < 4 ==> OctetText(parts[i])
    ensures IsValidIPv4(ip) ==> Count(ip, '.') == 3
  {
    AllOctetsIff(Split(ip, '.'));
  }

  /** The usual dotted-quad spelling of four values in 0..255. */
  function DottedQuad(a: nat, b: nat, c: nat, d: nat): string
  {
    FormatInt(a) + "." + FormatInt(b) + "." + FormatInt(c) + "." + FormatInt(d)
  }

  lemma DigitsHaveNoDot(n: nat)
    ensures '.' !in FormatInt(n)
  {
    var s := FormatInt(n);
    assert AllDigits(s);
    assert forall i :: 0 <= i < |s| ==> s[i] != '.';
  }

  /** Four separator-free fields joined with '.' split back into those four. */
  lemma SplitQuad(p0: string, p1: string, p2: string, p3: string)
    requires '.' !in p0 && '.' !in p1 && '.' !in p2 && '.' !in p3
    ensures Split(p0 + "." + p1 + "." + p2 + "." + p3, '.') == [p0, p1, p2, p3]
  {
    var r1 := p2 + "." + p3;
    var r0 := p1 + "." + r1;
    SplitWithoutSeparator(p3, '.');
    SplitAfterField(p2, p3, '.');
    SplitAfterField(p1, r1, '.');
    SplitAfterField(p0, r0, '.');
    assert p0 + "." + p1 + "." + p2 + "." + p3 == p0 + "." + r0;
  }

  /** Four parts that each read as a value in 0..255 pass the loop. */
  lemma AllOctetsOfFour(p0: string, p1: string, p2: string, p3: string)
    requires Atoi(p0).Some? && 0 <= Atoi(p0).value <= 255
    requires Atoi(p1).Some? && 0 <= Atoi(p1).value <= 255
    requires Atoi(p2).Some? && 0 <= Atoi(p2).value <= 255
    requires Atoi(p3).Some? && 0 <= Atoi(p3).value <= 255
    ensures AllOctets([p0, p1, p2, p3])
  {
    OctetTextIffAtoi(p0);
    OctetTextIffAtoi(p1);
    OctetTextIffAtoi(p2);
    OctetTextIffAtoi(p3);
    AllOctetsIff([p0, p1, p2, p3]);
  }

  /** Every address written in the usual dotted-quad form is accepted. */
  lemma DottedQuadValid(a: nat, b: nat, c: nat, d: nat)
    requires a <= 255 && b <= 255 && c <= 255 && d <= 255
    ensures IsValidIPv4(DottedQuad(a, b, c, d))
  {
    DigitsHaveNoDot(a);
    DigitsHaveNoDot(b);
    DigitsHaveNoDot(c);
    DigitsHaveNoDot(d);
    SplitQuad(FormatInt(a), FormatInt(b), FormatInt(c), FormatInt(d));
    AtoiFormatInt(a);
    AtoiFormatInt(b);
    AtoiFormatInt(c);
    AtoiFormatInt(d);
    AllOctetsOfFour(FormatInt(a), FormatInt(b), FormatInt(c), FormatInt(d));
  }

  /** The error parseIPs returns, naming the first rejected field. */
  datatype ParseError = InvalidAddress(ip: string)
  {
    function Message(): string { " " + ip + " is an invalid ip address" }
  }

  /**
    parseIPs: split the list on ',' and validate every field in order.  The
    first invalid field is reported; otherwise all fields are returned in
    their original order.
  */
  method ParseIPs(listIPs: string) returns (r: Result<seq<string>, ParseError>)
    ensures var fields := Split(listIPs, ',');
            r.Success? <==> forall i :: 0 <= i < |fields| ==> IsValidIPv4(fields[i])
    ensures r.Success? ==> r.value == Split(listIPs, ',')
    ensures r.Failure? ==>
              var fields := Split(listIPs, ',');
              exists k :: 0 <= k < |fields| && r.error == InvalidAddress(fields[k])
                          && !IsValidIPv4(fields[k])
                          && forall j :: 0 <= j < k ==> IsValidIPv4(fields[j])
  {
    var pingIPs: seq<string> := [];
    var ips := Split(listIPs, ',');
    var k := 0;
    while k < |ips|
      invariant 0 <= k <= |ips|
      invariant pingIPs == ips[..k]
      invariant forall j :: 0 <= j < k ==> IsValidIPv4(ips[j])
    {
      var ip := ips[k];
      if !IsValidIPv4(ip) {
        assert !IsValidIPv4(Split(listIPs, ',')[k]);
        return Failure(InvalidAddress(ip));
      }
      pingIPs := pingIPs + [ip];
      k := k + 1;
    }
    assert pingIPs == ips;
    return Success(pingIPs);
  }

  /** The empty list is rejected: it splits into one empty field, which is not an address. */
  lemma EmptyListRejected()
    ensures Split("", ',') == [""]
    ensures !IsValidIPv4("")
  {
  }

  /** Atoi reads leading zeros, a '+' and "-0". */
  lemma AtoiExamples()
    ensures Atoi("01") == Some(1)
    ensures Atoi("+1") == Some(1)
    ensures Atoi("-0") == Some(0)
    ensures Atoi("255") == Some(255)
  {
    assert Unsigned("01") == "01";
    assert "01"[..1] == "0" && "0"[..0] == "";
    assert Unsigned("+1") == "1";
    assert Unsigned("-0") == "0";
    ValueOfThree("255");
  }

  /** Leading zeros and a sign are accepted in every part. */
  lemma SignedAndPaddedAccepted()
    ensures IsValidIPv4("01.+1.-0.255")
  {
    assert "01.+1.-0.255" == "01" + "." + "+1" + "." + "-0" + "." + "255";
    SplitQuad("01", "+1", "-0", "255");
    AtoiExamples();
    AllOctetsOfFour("01", "+1", "-0", "255");
  }

  /** A part above 255 rejects the address. */
  lemma OutOfRangeRejected()
    ensures !IsValidIPv4("1.2.3.256")
  {
    assert "1.2.3.256" == "1" + "." + "2" + "." + "3" + "." + "256";
    SplitQuad("1", "2", "3", "256");
    OctetTextIffAtoi("256");
    AllOctetsIff(["1", "2", "3", "256"]);
  }

  /** An empty part rejects the address. */
  lemma EmptyPartRejected()
    ensures !IsValidIPv4("1..3.4")
  {
    assert "1..3.4" == "1" + "." + "" + "." + "3" + "." + "4";
    SplitQuad("1", "", "3", "4");
    AllOctetsIff(["1", "", "3", "4"]);
    assert !OctetText("");
  }
}
