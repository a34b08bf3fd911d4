/** The pieces of zod the request schemas are built from: string checks that
    each contribute zod's default message when they fail, required and
    optional fields, and the format checks (email, uuid, url) that zod
    implements and this model takes as given predicates. */
module Validation {
  import opened Common

  /** One problem a schema found: the path of the offending field and zod's message. */
  datatype Issue = Issue(path: seq<string>, message: string)

  /** zod's `.email()`, `.uuid()` and `.url()` recognisers. */
  datatype Formats = Formats(isEmail: string -> bool, isUuid: string -> bool, isUrl: string -> bool)

  function Digit(d: nat): char
    requires d < 10
  {
    "0123456789"[d]
  }

  /** The decimal numeral of `n`. */
  function Decimal(n: nat): (s: string)
    ensures |s| >= 1
    decreases n
  {
    if n < 10 then [Digit(n)] else Decimal(n / 10) + [Digit(n % 10)]
  }

  const RequiredMessage := "Required"
  const InvalidEmail := "Invalid email"
  const InvalidUuid := "Invalid uuid"
  const InvalidUrl := "Invalid url"
  const InvalidPattern := "Invalid"

  function AtLeast(n: nat): string
  {
    "String must contain at least " + Decimal(n) + " character(s)"
  }

  function AtMost(n: nat): string
  {
    "String must contain at most " + Decimal(n) + " character(s)"
  }

  function InvalidEnum(options: string, received: string): string
  {
    "Invalid enum value. Expected " + options + ", received '" + received + "'"
  }

  /** One string check: no message when it holds, its message when it fails. */
  function Check(ok: bool, message: string): (r: seq<string>)
    ensures r == [] <==> ok
  {
    if ok then [] else [message]
  }

  /** JavaScript's `.length`, which zod's `.min` and `.max` compare: the
      number of UTF-16 code units, two for a character beyond U+FFFF. */
  function JsLength(s: string): (n: nat)
    ensures |s| <= n <= 2 * |s|
    ensures (forall i :: 0 <= i < |s| ==> s[i] as int < 0x1_0000) ==> n == |s|
  {
    if s == [] then 0
    else (if s[0] as int < 0x1_0000 then 1 else 2) + JsLength(s[1..])
  }

  /** One character is one UTF-16 unit up to U+FFFF and two beyond. */
  lemma JsLengthChar(c: char)
    ensures JsLength([c]) == if c as int < 0x1_0000 then 1 else 2
  {
    assert [c][1..] == [];
  }

  /** The length of a concatenation is the sum of the lengths, so the length
      of any string is the sum of its characters' unit counts. */
  lemma {:induction false} JsLengthAppend(a: string, b: string)
    ensures JsLength(a + b) == JsLength(a) + JsLength(b)
    decreases |a|
  {
    if a != [] {
      assert (a + b)[0] == a[0];
      assert (a + b)[1..] == a[1..] + b;
      JsLengthAppend(a[1..], b);
    } else {
      assert a + b == b;
    }
  }

  /** A character outside the Basic Multilingual Plane counts twice, so four
      such characters meet an eight-character minimum. */
  lemma AstralCountsTwice()
    ensures JsLength("\U{1F600}") == 2
    ensures MinLength("\U{1F600}\U{1F600}\U{1F600}\U{1F600}", 8) == []
  {
    var e := "\U{1F600}";
    assert e[1..] == [];
    assert (e + e + e + e)[1..] == e + e + e;
    assert (e + e + e)[1..] == e + e;
    assert (e + e)[1..] == e;
  }

  function MinLength(s: string, n: nat): seq<string>
  {
    Check(JsLength(s) >= n, AtLeast(n))
  }

  function MaxLength(s: string, n: nat): seq<string>
  {
    Check(JsLength(s) <= n, AtMost(n))
  }

  /** The issues of field `name`, one per failed check, in check order. */
  function Messages(name: string, messages: seq<string>): (r: seq<Issue>)
    ensures |r| == |messages|
    ensures forall i :: 0 <= i < |r| ==> r[i] == Issue([name], messages[i])
  {
    seq(|messages|, i requires 0 <= i < |messages| => Issue([name], messages[i]))
  }

  /** A required string field: absent is the single issue "Required";
      present, every failed check is an issue. */
  function RequiredField(name: string, v: Option<string>, checks: string -> seq<string>): (r: seq<Issue>)
    ensures r == [] <==> v.Some? && checks(v.value) == []
    ensures forall i :: 0 <= i < |r| ==> r[i].path == [name]
  {
    match v
    case None => [Issue([name], RequiredMessage)]
    case Some(s) => Messages(name, checks(s))
  }

  /** An `.optional()` string field: absent is fine. */
  function OptionalField(name: string, v: Option<string>, checks: string -> seq<string>): (r: seq<Issue>)
    ensures r == [] <==> v.None? || checks(v.value) == []
    ensures forall i :: 0 <= i < |r| ==> r[i].path == [name]
  {
    match v
    case None => []
    case Some(s) => Messages(name, checks(s))
  }
}
