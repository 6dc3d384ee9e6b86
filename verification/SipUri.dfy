/** Printing and parsing of the `sip:user@host:port` form (section 19.1.1 of RFC 3261)
    that stands between serials and addresses (MpUtils.cpp). */
module SipUri {
  import opened Base

  const SCHEMA := "sip:"
  const TRANSPORT := ";transport=tls"
  const SIZE_T: int := 0x1_0000_0000_0000_0000

  predicate MatchesAt(s: string, pattern: string, i: nat) {
    i + |pattern| <= |s| && s[i..i + |pattern|] == pattern
  }

  /** std::string::find: the first match at or after `from`, -1 for npos. */
  function Find(s: string, pattern: string, from: nat): (r: int)
    requires from <= |s|
    ensures r == -1 || (from <= r && MatchesAt(s, pattern, r))
    ensures forall i :: from <= i && (r == -1 || i < r) ==> !MatchesAt(s, pattern, i)
    decreases |s| - from
  {
    if MatchesAt(s, pattern, from) then from
    else if from + |pattern| >= |s| then -1
    else Find(s, pattern, from + 1)
  }

  /** std::string::rfind of one character: the last occurrence, -1 for npos. */
  function FindLast(s: string, c: char): (r: int)
    ensures -1 <= r < |s|
    ensures r >= 0 ==> s[r] == c
    ensures forall i :: r < i < |s| ==> s[i] != c
  {
    if s == "" then -1
    else if s[|s| - 1] == c then |s| - 1
    else FindLast(s[..|s| - 1], c)
  }

  /** The std::string::substr of `n` characters, `n` being an unsigned difference. */
  function Substr(s: string, at: nat, n: int): string
    requires at <= |s|
  {
    var count := n % SIZE_T;
    s[at..if at + count < |s| then at + count else |s|]
  }

  function Decimal(n: nat): (r: string)
    ensures '@' !in r && r != ""
  {
    if n < 10 then ["0123456789"[n]] else Decimal(n / 10) + ["0123456789"[n % 10]]
  }

  /** None is the null the code returns on bad input. */
  function GetSerialFromUri(uri: string): Option<string> {
    if uri == "" then None else
    var beg := Find(uri, SCHEMA, 0);
    if beg == -1 then None else
    var end := FindLast(uri, '@');
    if end == -1 then None else
    Some(Substr(uri, beg + |SCHEMA|, end - beg - |SCHEMA|))
  }

  function GetUriFromSerial(serial: string, address: string, port: nat): Option<string> {
    if serial == "" then None
    else Some(SCHEMA + serial + "@" + address + ":" + Decimal(port) + TRANSPORT)
  }

  lemma LastSeparator(front: string, back: string)
    ensures '@' !in back ==> FindLast(front + "@" + back, '@') == |front|
    ensures '@' in back ==> FindLast(front + "@" + back, '@') > |front|
  {
    var s := front + "@" + back;
    assert s[|front|] == '@' && s[|front| + 1..] == back;
    forall i | |front| < i < |s| ensures s[i] == back[i - |front| - 1] {}
    if '@' in back {
      var i :| 0 <= i < |back| && back[i] == '@';
      assert s[|front| + 1 + i] == '@';
    }
  }

  lemma SerialBetween(uri: string, serial: string, rest: string, end: nat)
    requires uri == SCHEMA + serial + rest && |uri| < SIZE_T && 4 + |serial| <= end < |uri|
    ensures Substr(uri, 4, end - 4) == serial <==> end == 4 + |serial|
  {
    assert uri[4..4 + |serial|] == serial;
    assert Substr(uri, 4, end - 4) == uri[4..end];
  }

  lemma ParseFromStart(uri: string)
    requires |uri| >= 4 && uri[..4] == SCHEMA && '@' in uri
    ensures GetSerialFromUri(uri) == Some(Substr(uri, 4, FindLast(uri, '@') - 4))
  {
    assert uri[0..4] == uri[..4];
    assert MatchesAt(uri, SCHEMA, 0);
    assert Find(uri, SCHEMA, 0) == 0;
  }

  lemma ParsePrinted(serial: string, back: string)
    requires |SCHEMA + serial + "@" + back| < SIZE_T
    ensures GetSerialFromUri(SCHEMA + serial + "@" + back) == Some(serial) <==> '@' !in back
  {
    StartsWithSchema(serial);
    ParseFront(SCHEMA + serial, serial, back);
  }

  lemma ParseFront(front: string, serial: string, back: string)
    requires front == SCHEMA + serial && |front| == 4 + |serial| && front[..4] == SCHEMA
    requires |front + "@" + back| < SIZE_T
    ensures GetSerialFromUri(front + "@" + back) == Some(serial) <==> '@' !in back
  {
    var uri := front + "@" + back;
    FrontOf(front, back);
    LastSeparator(front, back);
    var end := FindLast(uri, '@');
    var parsed := GetSerialFromUri(uri);
    assert parsed == Some(Substr(uri, 4, end - 4)) by { ParseFromStart(uri); }
    assert Substr(uri, 4, end - 4) == serial <==> end == |front| by { SerialBetween(uri, serial, "@" + back, end); }
  }

  lemma StartsWithSchema(serial: string)
    ensures |SCHEMA + serial| == 4 + |serial| && (SCHEMA + serial)[..4] == SCHEMA
  {}

  lemma FrontOf(front: string, back: string)
    requires |front| >= 4
    ensures var uri := front + "@" + back; uri[..4] == front[..4] && '@' in uri && uri == front + ("@" + back)
  {
    var uri := front + "@" + back;
    assert uri[|front|] == '@';
  }

  lemma NoSeparatorAdded(address: string, digits: string)
    requires '@' !in digits
    ensures '@' in address + ":" + digits + TRANSPORT <==> '@' in address
  {
    assert '@' !in TRANSPORT;
    assert '@' !in ":" + digits;
    assert address + ":" + digits + TRANSPORT == address + (":" + digits) + TRANSPORT;
  }

  lemma Reassociate(front: string, a: string, b: string, c: string, d: string)
    ensures front + "@" + a + b + c + d == front + "@" + (a + b + c + d)
  {}

  /** A printed serial reads back exactly when the address has no '@': the schema matches first
      at the front and the separator is the last '@', whatever the serial itself contains. */
  lemma SerialRoundTrip(serial: string, address: string, port: nat)
    requires serial != "" && |GetUriFromSerial(serial, address, port).value| < SIZE_T
    ensures GetSerialFromUri(GetUriFromSerial(serial, address, port).value) == Some(serial) <==> '@' !in address
  {
    var digits := Decimal(port);
    NoSeparatorAdded(address, digits);
    Reassociate(SCHEMA + serial, address, ":", digits, TRANSPORT);
    ParsePrinted(serial, address + ":" + digits + TRANSPORT);
  }

  // The printed form -----------------------------------------------------------------------------

  predicate IsDigit(c: char) { '0' <= c <= '9' }

  /** The number that digits spell, read from left to right. */
  function Spelled(s: string, acc: nat): nat
    requires forall i :: 0 <= i < |s| ==> IsDigit(s[i])
  {
    if s == "" then acc else
    assert IsDigit(s[0]);
    Spelled(s[1..], 10 * acc + (s[0] as int - '0' as int))
  }

  lemma {:induction false} SpelledSnoc(s: string, c: char, acc: nat)
    requires IsDigit(c) && forall i :: 0 <= i < |s| ==> IsDigit(s[i])
    ensures Spelled(s + [c], acc) == 10 * Spelled(s, acc) + (c as int - '0' as int)
  {
    if s == "" {
      assert s + [c] == [c] && [c][1..] == "";
      assert Spelled([c], acc) == Spelled("", 10 * acc + (c as int - '0' as int));
    } else {
      SpelledSnoc(s[1..], c, 10 * acc + (s[0] as int - '0' as int));
      assert (s + [c])[0] == s[0] && (s + [c])[1..] == s[1..] + [c];
    }
  }

  /** A printed number: only digits, no leading zero but for 0, and it spells the number. */
  lemma {:induction false} DecimalSpells(n: nat)
    ensures forall i :: 0 <= i < |Decimal(n)| ==> IsDigit(Decimal(n)[i])
    ensures Spelled(Decimal(n), 0) == n
    ensures Decimal(n)[0] == '0' <==> n == 0
    ensures n == 0 ==> Decimal(n) == "0"
    ensures Spells(Decimal(n), n) && ':' !in Decimal(n) && ';' !in Decimal(n)
  {
    var c := "0123456789"[n % 10];
    assert c as int == '0' as int + n % 10;
    if n < 10 {
      assert Decimal(n) == [c] && [c][1..] == "";
      assert Spelled([c], 0) == Spelled("", c as int - '0' as int);
    } else {
      DecimalSpells(n / 10);
      SpelledSnoc(Decimal(n / 10), c, 0);
      assert Decimal(n)[0] == Decimal(n / 10)[0];
    }
  }

  /** A URI of five parts. */
  function Joined(head: string, a: string, d: string, t: string): string { head + "@" + a + ":" + d + t }

  lemma Pieces(head: string, a: string, d: string, t: string)
    ensures var uri := Joined(head, a, d, t);
            var at := |head|;
            var colon := at + 1 + |a|;
            var semi := colon + 1 + |d|;
            && |uri| == semi + |t| && uri[at] == '@' && uri[colon] == ':'
            && uri[..at] == head && uri[at + 1..colon] == a && uri[colon + 1..semi] == d && uri[semi..] == t
  {}

  lemma LastAt(s: string, c: char, k: nat)
    requires k < |s| && s[k] == c && forall i :: k < i < |s| ==> s[i] != c
    ensures FindLast(s, c) == k
  {}

  lemma MatchesOne(s: string, c: char, i: nat)
    ensures MatchesAt(s, [c], i) <==> i < |s| && s[i] == c
  {
    if i < |s| { assert s[i..i + 1] == [s[i]]; }
  }

  lemma FirstAt(s: string, c: char, from: nat, k: nat)
    requires from <= k < |s| && s[k] == c && forall i :: from <= i < k ==> s[i] != c
    ensures Find(s, [c], from) == k
  {
    MatchesOne(s, c, k);
    forall i | from <= i < k ensures !MatchesAt(s, [c], i) { MatchesOne(s, c, i); }
  }

  /** Where the separators of the five parts stand. */
  lemma Separators(head: string, a: string, d: string, t: string)
    requires '@' !in a && '@' !in d && '@' !in t && ':' !in d && ':' !in t && ';' !in d && t != "" && t[0] == ';'
    ensures var uri := Joined(head, a, d, t);
            var at := |head|;
            var colon := at + 1 + |a|;
            && FindLast(uri, '@') == at && FindLast(uri, ':') == colon && colon + 1 <= |uri|
            && Find(uri, ";", colon + 1) == colon + 1 + |d|
  {
    var uri := Joined(head, a, d, t);
    var at := |head|;
    var colon := at + 1 + |a|;
    var semi := colon + 1 + |d|;
    Pieces(head, a, d, t);
    forall i | at < i < |uri| && i != colon ensures uri[i] != '@' {
      if i < colon { assert uri[i] == a[i - at - 1]; }
      else if i < semi { assert uri[i] == d[i - colon - 1]; }
      else { assert uri[i] == t[i - semi]; }
    }
    forall i | colon < i < |uri| ensures uri[i] != ':' {
      if i < semi { assert uri[i] == d[i - colon - 1]; } else { assert uri[i] == t[i - semi]; }
    }
    forall i | colon < i < semi ensures uri[i] != ';' { assert uri[i] == d[i - colon - 1]; }
    LastAt(uri, '@', at);
    LastAt(uri, ':', colon);
    FirstAt(uri, ';', colon + 1, semi);
  }

  /** A URI taken apart at its last '@', its last ':' and the ';' after that. */
  ghost predicate Parted(uri: string, serial: string, address: string, d: string, t: string) {
    var at, colon := FindLast(uri, '@'), FindLast(uri, ':');
    && 4 <= at < colon < |uri|
    && var semi := Find(uri, ";", colon + 1);
    && colon < semi < |uri|
    && uri[..4] == "sip:" && uri[4..at] == serial && uri[at + 1..colon] == address
    && uri[colon + 1..semi] == d && uri[semi..] == t
  }

  /** The printed URI has the schema, the serial, the address, the digits of the port and the transport as its
      parts, for every address without '@'. */
  lemma PrintedParts(serial: string, address: string, port: nat) returns (digits: string)
    requires serial != "" && '@' !in address
    ensures Spells(digits, port)
    ensures GetUriFromSerial(serial, address, port).Some?
    ensures Parted(GetUriFromSerial(serial, address, port).value, serial, address, digits, ";transport=tls")
  {
    digits := Decimal(port);
    DecimalSpells(port);
    NotInTransport();
    JoinedParts(serial, address, digits, TRANSPORT);
    assert GetUriFromSerial(serial, address, port) == Some(Joined(SCHEMA + serial, address, digits, TRANSPORT));
  }

  lemma JoinedParts(serial: string, address: string, d: string, t: string)
    requires '@' !in address && '@' !in d && '@' !in t && ':' !in d && ':' !in t && ';' !in d && t != "" && t[0] == ';'
    ensures Parted(Joined(SCHEMA + serial, address, d, t), serial, address, d, t)
  {
    Separators(SCHEMA + serial, address, d, t);
    Pieces(SCHEMA + serial, address, d, t);
    HeadParts(serial, Joined(SCHEMA + serial, address, d, t));
  }

  lemma NotInTransport()
    ensures '@' !in TRANSPORT && ':' !in TRANSPORT && TRANSPORT != "" && TRANSPORT[0] == ';'
  {}

  lemma HeadParts(serial: string, uri: string)
    requires SCHEMA + serial <= uri
    ensures |SCHEMA + serial| == 4 + |serial| && uri[..4] == "sip:" && uri[4..4 + |serial|] == serial
  {
    var head := SCHEMA + serial;
    assert head[..4] == "sip:" && head[4..] == serial;
    assert uri[..|head|] == head;
    assert uri[..4] == head[..4] && uri[4..|head|] == head[4..];
  }

  /** Digits without a leading zero, unless they are "0", that spell `n`. */
  ghost predicate Spells(s: string, n: nat) {
    && s != "" && (forall i :: 0 <= i < |s| ==> IsDigit(s[i]))
    && Spelled(s, 0) == n && (s[0] == '0' ==> s == "0")
  }

  // The parser -----------------------------------------------------------------------------------

  ghost predicate FirstSchema(uri: string, i: nat) {
    MatchesAt(uri, "sip:", i) && forall k :: 0 <= k < i ==> !MatchesAt(uri, "sip:", k)
  }

  ghost predicate LastSeparatorAt(uri: string, j: nat) {
    j < |uri| && uri[j] == '@' && forall k :: j < k < |uri| ==> uri[k] != '@'
  }

  /** A negative count wraps around and takes all the rest. */
  lemma SubstrWraps(s: string, at: nat, j: nat)
    requires j < at <= |s| < SIZE_T
    ensures Substr(s, at, j - at) == s[at..]
  {
    assert (j - at) % SIZE_T == j - at + SIZE_T;
  }

  /** The parser finds nothing exactly without the schema or without a separator. */
  lemma ParsedNone(uri: string)
    ensures GetSerialFromUri(uri) == None <==> (forall k: nat :: !MatchesAt(uri, "sip:", k)) || '@' !in uri
  {
    if FindLast(uri, '@') == -1 { assert '@' !in uri; }
    NoSchema(uri);
  }

  lemma NoSchema(uri: string)
    ensures Find(uri, SCHEMA, 0) == -1 <==> forall k: nat :: !MatchesAt(uri, "sip:", k)
  {}

  /** What it returns otherwise: when the last '@' stands after the first schema, what stands between them, and
      when it stands before, all the rest. */
  lemma ParsedBetween(uri: string, i: nat, j: nat)
    requires |uri| < SIZE_T && FirstSchema(uri, i) && LastSeparatorAt(uri, j)
    ensures GetSerialFromUri(uri) == Some(if i + 4 <= j then uri[i + 4..j] else uri[i + 4..])
  {
    LastAt(uri, '@', j);
    assert Find(uri, SCHEMA, 0) == i;
    if j < i + 4 { SubstrWraps(uri, i + 4, j); }
  }
}
