/** The length-prefixed texts that job identities and job states are hashed from. */
module Encoding {
  import opened Prelude

  // ----- Decimal lengths -----

  predicate IsDigit(c: char) {
    '0' <= c <= '9'
  }

  function Digit(d: nat): char
    requires d < 10
  {
    ('0' as int + d) as char
  }

  function DigitValue(c: char): nat
    requires IsDigit(c)
  {
    c as int - '0' as int
  }

  // Shortest decimal notation.
  function Decimal(n: nat): string {
    if n < 10 then [Digit(n)] else Decimal(n / 10) + [Digit(n % 10)]
  }

  function Value(digits: string): nat
    requires forall i :: 0 <= i < |digits| ==> IsDigit(digits[i])
  {
    if digits == [] then 0
    else Value(digits[..|digits| - 1]) * 10 + DigitValue(digits[|digits| - 1])
  }

  lemma {:induction false} DecimalReads(n: nat)
    ensures |Decimal(n)| >= 1 && (forall i :: 0 <= i < |Decimal(n)| ==> IsDigit(Decimal(n)[i]))
    ensures Value(Decimal(n)) == n
  {
    if n < 10 {
      assert Decimal(n)[..0] == [];
    } else {
      DecimalReads(n / 10);
      assert Decimal(n)[..|Decimal(n)| - 1] == Decimal(n / 10);
    }
  }

  // ----- Encoding and decoding fields -----

  function Field(field: string): string {
    Decimal(|field|) + ":" + field
  }

  function Fields(fields: seq<string>): string {
    if fields == [] then "" else Field(fields[0]) + Fields(fields[1..])
  }

  // The leading digits of a text.
  function Prefix(text: string): (digits: string)
    ensures |digits| <= |text| && text[..|digits|] == digits
    ensures forall i :: 0 <= i < |digits| ==> IsDigit(digits[i])
  {
    if text == [] || !IsDigit(text[0]) then [] else [text[0]] + Prefix(text[1..])
  }

  // The first field and what follows it.
  function ReadField(text: string): Option<(string, string)> {
    var digits := Prefix(text);
    var start := |digits| + 1;
    if digits == [] || start > |text| || text[|digits|] != ':' || start + Value(digits) > |text| then None
    else Some((text[start..start + Value(digits)], text[start + Value(digits)..]))
  }

  function Decode(text: string): Option<seq<string>>
    decreases |text|
  {
    if text == [] then Some([])
    else
      var first := ReadField(text);
      if first.None? then None
      else
        var rest := Decode(first.value.1);
        if rest.None? then None else Some([first.value.0] + rest.value)
  }

  lemma {:induction false} PrefixStops(digits: string, rest: string)
    requires forall i :: 0 <= i < |digits| ==> IsDigit(digits[i])
    requires rest != [] && !IsDigit(rest[0])
    ensures Prefix(digits + rest) == digits
  {
    if digits == [] {
      assert digits + rest == rest;
    } else {
      assert (digits + rest)[1..] == digits[1..] + rest;
      PrefixStops(digits[1..], rest);
    }
  }

  lemma ReadBack(field: string, rest: string)
    ensures ReadField(Field(field) + rest) == Some((field, rest))
  {
    var digits := Decimal(|field|);
    DecimalReads(|field|);
    PrefixStops(digits, ":" + field + rest);
    var text := digits + (":" + field + rest);
    assert Field(field) + rest == text;
    var start := |digits| + 1;
    assert text[start..start + |field|] == field;
    assert text[start + |field|..] == rest;
  }

  // Decoding inverts encoding, whatever characters the fields hold.
  lemma {:induction false} RoundTrip(fields: seq<string>)
    ensures Decode(Fields(fields)) == Some(fields)
  {
    if fields != [] {
      RoundTrip(fields[1..]);
      ReadBack(fields[0], Fields(fields[1..]));
      DecimalReads(|fields[0]|);
      assert fields == [fields[0]] + fields[1..];
    }
  }

  // ----- The two hashed texts -----

  // The program's text normalizers; a digest may be refused.
  datatype Normal = Normal(identity: string -> string, url: string -> string, location: string -> string, digest: string -> Option<string>)

  function IdentityText(n: Normal, company: string, title: string): string {
    Field(n.identity(company)) + Field(n.identity(title))
  }

  function StateText(n: Normal, baseHash: string, url: string, location: string, closed: bool): Option<string> {
    var digest := n.digest(baseHash);
    if digest.None? then None
    else Some(Fields([digest.value, n.url(url), n.location(location), if closed then "true" else "false"]))
  }

  // Two jobs share the text their identity is hashed from exactly when company and title normalize alike.
  lemma IdentityIsExact(n: Normal, company: string, title: string, company': string, title': string)
    ensures (IdentityText(n, company, title) == IdentityText(n, company', title')
             <==> n.identity(company) == n.identity(company') && n.identity(title) == n.identity(title'))
  {
    var fields, fields' := [n.identity(company), n.identity(title)], [n.identity(company'), n.identity(title')];
    TwoFields(fields[0], fields[1]);
    TwoFields(fields'[0], fields'[1]);
    RoundTrip(fields);
    RoundTrip(fields');
  }

  lemma TwoFields(a: string, b: string)
    ensures Field(a) + Field(b) == Fields([a, b])
  {
    assert [a, b][1..] == [b] && [b][1..] == [];
    assert Fields([b]) == Field(b) + "" == Field(b);
  }

  // A field is written as its length in decimal, without leading zeros, a colon, and the field itself.
  lemma FieldIs(field: string) returns (digits: string)
    ensures Field(field) == digits + ":" + field
    ensures digits != "" && (forall i :: 0 <= i < |digits| ==> IsDigit(digits[i])) && Value(digits) == |field|
    ensures |digits| > 1 ==> digits[0] != '0'
  {
    digits := Decimal(|field|);
    DecimalReads(|field|);
    NoLeadingZero(|field|);
  }

  lemma {:induction false} NoLeadingZero(n: nat)
    ensures n >= 1 ==> Decimal(n) != "" && Decimal(n)[0] != '0'
    ensures n == 0 ==> Decimal(n) == "0"
  {
    if n >= 10 {
      NoLeadingZero(n / 10);
      assert Decimal(n)[0] == Decimal(n / 10)[0];
    }
  }

  // Read back, the texts list company and title; and digest, URL, location and closed flag, in this order.
  // A state has a text exactly when its digest is accepted.
  lemma TextsReadBack(n: Normal, company: string, title: string, base: string, url: string, location: string, closed: bool)
    ensures Decode(IdentityText(n, company, title)) == Some([n.identity(company), n.identity(title)])
    ensures StateText(n, base, url, location, closed).Some? <==> n.digest(base).Some?
    ensures n.digest(base).Some? ==>
      Decode(StateText(n, base, url, location, closed).value)
      == Some([n.digest(base).value, n.url(url), n.location(location), if closed then "true" else "false"])
  {
    TwoFields(n.identity(company), n.identity(title));
    RoundTrip([n.identity(company), n.identity(title)]);
    if n.digest(base).Some? {
      RoundTrip([n.digest(base).value, n.url(url), n.location(location), if closed then "true" else "false"]);
    }
  }

  // Two states share their text exactly when canonical digest, URL, location and closed flag all agree.
  lemma StateIsExact(n: Normal, base: string, url: string, location: string, closed: bool,
                     base': string, url': string, location': string, closed': bool)
    requires StateText(n, base, url, location, closed).Some? && StateText(n, base', url', location', closed').Some?
    ensures (StateText(n, base, url, location, closed) == StateText(n, base', url', location', closed')
             <==> n.digest(base) == n.digest(base') && n.url(url) == n.url(url') && n.location(location) == n.location(location') && closed == closed')
  {
    var fields := [n.digest(base).value, n.url(url), n.location(location), if closed then "true" else "false"];
    var fields' := [n.digest(base').value, n.url(url'), n.location(location'), if closed' then "true" else "false"];
    RoundTrip(fields);
    RoundTrip(fields');
    if fields == fields' {
      assert fields[0] == fields'[0] && fields[1] == fields'[1] && fields[2] == fields'[2] && fields[3] == fields'[3];
      assert |"true"| != |"false"|;
    }
  }
}
