/** Helpers shared by the screens: optional values, the outcome of a request,
    JavaScript's `||` fallbacks and truthiness, the role list taken from the
    stored bearer token, and the string and sequence operations the screens
    use (filter, trim, lower-casing, substring search, number formatting). */
module Common {

  datatype Option<T> = None | Some(value: T)

  /** A rejected axios request: `err.response?.status`, `err.response?.data?.error`
      and `err.message`. */
  datatype HttpError = HttpError(status: Option<int>, backendError: Option<string>, message: string)

  /** What an awaited request came back with: the response body, or the error. */
  datatype Outcome<T> = Success(body: T) | Failure(error: HttpError)

  /** A file chosen in a file input, with the data URL a FileReader makes of it. */
  datatype File = File(name: string, mimeType: string, dataUrl: string)

  /** The `e.target` of an input's change event: its name, type, text value and checked state. */
  datatype Target = Target(name: string, inputType: string, value: string, checked: bool)

  /** `localStorage.getItem("token")` is truthy: present and not empty. */
  predicate HasToken(token: Option<string>)
  {
    token.Some? && token.value != ""
  }

  /** `a || fallback` for a string that may be missing (undefined or null). */
  function OrElse(a: Option<string>, fallback: string): (r: string)
    ensures r == fallback || (a == Some(r) && r != "")
    ensures a.Some? && a.value != "" ==> r == a.value
  {
    if a.Some? && a.value != "" then a.value else fallback
  }

  /** `a || fallback` for a string that is always present. */
  function OrString(a: string, fallback: string): string
  {
    if a != "" then a else fallback
  }

  /** `err.response?.data?.error || fallback`: the backend's message when it sent a non-empty one. */
  function ErrorText(e: HttpError, fallback: string): (msg: string)
    ensures msg == fallback || (e.backendError == Some(msg) && msg != "")
    ensures e.backendError.Some? && e.backendError.value != "" ==> msg == e.backendError.value
  {
    OrElse(e.backendError, fallback)
  }

  /** Looks up a form field held in a JavaScript object; a missing key reads as "". */
  function FieldOf(m: map<string, string>, k: string): string
  {
    if k in m then m[k] else ""
  }

  // ---------------------------------------------------------------------------
  // Roles from the bearer token
  // ---------------------------------------------------------------------------

  /** What `jwtDecode(token)` gives: it throws, or it yields claims whose
      `userTypes` may be missing. The decoding itself is not modelled. */
  datatype Decoded = DecodeError | Claims(userTypes: Option<seq<string>>)

  /** The role list a screen derives from the stored token: no token, a decode
      exception or a missing `userTypes` all give the empty list. */
  function RolesOf(token: Option<string>, decoded: Decoded): (roles: seq<string>)
    ensures roles != [] ==> HasToken(token) && decoded == Claims(Some(roles))
    ensures HasToken(token) && decoded.Claims? && decoded.userTypes.Some? ==> roles == decoded.userTypes.value
    ensures !HasToken(token) || decoded.DecodeError? || decoded == Claims(None) ==> roles == []
  {
    if !HasToken(token) then []
    else match decoded
      case DecodeError => []
      case Claims(ut) => if ut.Some? then ut.value else []
  }

  predicate IsAdmin(roles: seq<string>)
  {
    "admin" in roles
  }

  predicate IsVorstand(roles: seq<string>)
  {
    "vorstand" in roles
  }

  // ---------------------------------------------------------------------------
  // Array.prototype.filter
  // ---------------------------------------------------------------------------

  /** `s.filter(p)`: the elements satisfying p, in their original order. */
  function Filter<T>(s: seq<T>, p: T -> bool): (r: seq<T>)
    ensures |r| <= |s|
    ensures forall x :: x in r ==> x in s && p(x)
    ensures forall i :: 0 <= i < |s| && p(s[i]) ==> s[i] in r
    ensures multiset(r) <= multiset(s)
  {
    if s == [] then []
    else
      HeadTail(s);
      (if p(s[0]) then [s[0]] else []) + Filter(s[1..], p)
  }

  /** A non-empty sequence is its head and its tail. */
  lemma HeadTail<T>(s: seq<T>)
    requires s != []
    ensures multiset(s) == multiset{s[0]} + multiset(s[1..])
    ensures forall x :: x in s[1..] ==> x in s
  {
    assert s == [s[0]] + s[1..];
  }

  /** Concatenation is associative; kept apart so that callers prove it without their own facts in scope. */
  lemma ConcatAssoc<T>(x: seq<T>, y: seq<T>, z: seq<T>)
    ensures x + y + z == x + (y + z)
  {
  }

  /** Filtering distributes over concatenation, so it keeps the relative order of what it keeps. */
  lemma {:induction false} FilterConcat<T>(a: seq<T>, b: seq<T>, p: T -> bool)
    ensures Filter(a + b, p) == Filter(a, p) + Filter(b, p)
  {
    if a == [] {
      assert a + b == b;
    } else {
      assert (a + b)[1..] == a[1..] + b;
      FilterConcat(a[1..], b, p);
    }
  }

  /** Filtering with a predicate that every element satisfies changes nothing. */
  lemma {:induction false} FilterKeepsAll<T>(s: seq<T>, p: T -> bool)
    requires forall i :: 0 <= i < |s| ==> p(s[i])
    ensures Filter(s, p) == s
  {
    if s != [] {
      FilterKeepsAll(s[1..], p);
    }
  }

  /** `s.filter((_, i) => i !== k)`: the sequence without index k (unchanged when k is out of range). */
  function RemoveAt<T>(s: seq<T>, k: int): (r: seq<T>)
    ensures 0 <= k < |s| ==> r == s[..k] + s[k + 1..]
    ensures !(0 <= k < |s|) ==> r == s
  {
    if 0 <= k < |s| then s[..k] + s[k + 1..] else s
  }

  /** Removing index k keeps every other element, in order. */
  lemma RemoveAtShifts<T>(s: seq<T>, k: nat, i: nat)
    requires k < |s| && i < |s| - 1
    ensures |RemoveAt(s, k)| == |s| - 1
    ensures RemoveAt(s, k)[i] == if i < k then s[i] else s[i + 1]
  {
  }

  // ---------------------------------------------------------------------------
  // Strings
  // ---------------------------------------------------------------------------

  /** The characters String.prototype.trim strips: white space and line terminators. */
  predicate IsJsSpace(c: char)
  {
    c == ' ' || c == '\t' || c == '\n' || c == '\r' || c == '\U{000B}' || c == '\U{000C}'
    || c == '\U{00A0}' || c == '\U{1680}' || ('\U{2000}' <= c <= '\U{200A}')
    || c == '\U{2028}' || c == '\U{2029}' || c == '\U{202F}' || c == '\U{205F}'
    || c == '\U{3000}' || c == '\U{FEFF}'
  }

  /** Drops the leading white space: the result is a suffix that does not start with space. */
  function TrimStart(s: string): (r: string)
    ensures |r| <= |s| && r == s[|s| - |r|..]
    ensures forall i :: 0 <= i < |s| - |r| ==> IsJsSpace(s[i])
    ensures r != [] ==> !IsJsSpace(r[0])
  {
    if s != [] && IsJsSpace(s[0]) then
      var r := TrimStart(s[1..]);
      assert s[1..][|s| - 1 - |r|..] == s[|s| - |r|..];
      r
    else s
  }

  /** Drops the trailing white space: the result is a prefix that does not end with space. */
  function TrimEnd(s: string): (r: string)
    ensures |r| <= |s| && r == s[..|r|]
    ensures forall i :: |r| <= i < |s| ==> IsJsSpace(s[i])
    ensures r != [] ==> !IsJsSpace(r[|r| - 1])
  {
    if s != [] && IsJsSpace(s[|s| - 1]) then TrimEnd(s[..|s| - 1]) else s
  }

  /** `s.trim()`: no white space is left at either end, and a string with
      none at its ends comes back unchanged. */
  function Trim(s: string): (r: string)
    ensures |r| <= |s|
    ensures r != [] ==> !IsJsSpace(r[0]) && !IsJsSpace(r[|r| - 1])
    ensures s == [] || (!IsJsSpace(s[0]) && !IsJsSpace(s[|s| - 1])) ==> r == s
  {
    var t := TrimStart(s);
    var r := TrimEnd(t);
    assert r != [] ==> r[0] == t[0];
    r
  }

  /** A trimmed string is empty exactly when the input held nothing but white space. */
  lemma TrimEmptyIffBlank(s: string)
    ensures Trim(s) == "" <==> forall i :: 0 <= i < |s| ==> IsJsSpace(s[i])
  {
    var t := TrimStart(s);
    if Trim(s) == "" {
      forall i | 0 <= i < |s| ensures IsJsSpace(s[i]) {
        if i >= |s| - |t| {
          assert t[i - (|s| - |t|)] == s[i];
        }
      }
    } else {
      var r := Trim(s);
      assert r[0] == t[0] == s[|s| - |t|];
    }
  }

  /** Trimming leaves no white space at either end and is idempotent. */
  lemma TrimIdempotent(s: string)
    ensures Trim(Trim(s)) == Trim(s)
  {
  }

  /** String.prototype.toLowerCase for ASCII and the Latin-1 capitals (Ä, Ö, Ü, ...). */
  function LowerChar(c: char): char
  {
    if 'A' <= c <= 'Z' || ('\U{00C0}' <= c <= '\U{00DE}' && c != '\U{00D7}')
    then (c as int + 32) as char
    else c
  }

  function Lower(s: string): (r: string)
    ensures |r| == |s|
    ensures forall i :: 0 <= i < |s| ==> r[i] == LowerChar(s[i])
  {
    seq(|s|, i requires 0 <= i < |s| => LowerChar(s[i]))
  }

  /** Lower-casing twice is lower-casing once. */
  lemma LowerIdempotent(s: string)
    ensures Lower(Lower(s)) == Lower(s)
  {
    var l := Lower(s);
    assert forall i :: 0 <= i < |s| ==> LowerChar(l[i]) == l[i];
  }

  /** `s.includes(q)`: q occurs in s as a contiguous piece. */
  predicate Contains(s: string, q: string)
    ensures Contains(s, q) ==> |q| <= |s|
    ensures q == [] ==> Contains(s, q)
    decreases |s|
  {
    q <= s || (s != [] && Contains(s[1..], q))
  }

  /** q sits in s at offset k. */
  predicate OccursAt(s: string, q: string, k: nat)
  {
    k + |q| <= |s| && s[k..k + |q|] == q
  }

  /** A piece found by Contains sits at an offset of s. */
  lemma {:induction false} ContainsWitness(s: string, q: string) returns (k: nat)
    requires Contains(s, q)
    ensures OccursAt(s, q, k)
    decreases |s|
  {
    if q <= s {
      k := 0;
    } else {
      var j := ContainsWitness(s[1..], q);
      assert s[j + 1..j + 1 + |q|] == s[1..][j..j + |q|];
      k := j + 1;
    }
  }

  /** A piece at any offset of s is found by Contains. */
  lemma {:induction false} OccursContains(s: string, q: string, k: nat)
    requires OccursAt(s, q, k)
    ensures Contains(s, q)
    decreases k
  {
    if k > 0 {
      assert s[1..][k - 1..k - 1 + |q|] == s[k..k + |q|];
      OccursContains(s[1..], q, k - 1);
    }
  }

  /** Contains is substring search: it holds exactly when q sits at some offset of s. */
  lemma ContainsIffOccurs(s: string, q: string)
    ensures Contains(s, q) <==> exists k: nat :: OccursAt(s, q, k)
  {
    if Contains(s, q) {
      var k := ContainsWitness(s, q);
    }
    forall k: nat | OccursAt(s, q, k)
      ensures Contains(s, q)
    {
      OccursContains(s, q, k);
    }
  }

  /** The empty query occurs in every string. */
  lemma ContainsEmpty(s: string)
    ensures Contains(s, "")
  {
  }

  function DigitChar(d: nat): char
    requires d < 10
  {
    "0123456789"[d]
  }

  function NatToString(n: nat): (r: string)
    ensures |r| >= 1
    ensures forall i :: 0 <= i < |r| ==> '0' <= r[i] <= '9'
    decreases n
  {
    if n < 10 then [DigitChar(n)] else NatToString(n / 10) + [DigitChar(n % 10)]
  }

  /** `String(i)` for an integer. */
  function IntToString(i: int): (r: string)
    ensures |r| >= 1
    ensures i < 0 <==> r[0] == '-'
    ensures forall k :: (if i < 0 then 1 else 0) <= k < |r| ==> '0' <= r[k] <= '9'
  {
    if i < 0 then "-" + NatToString(-i) else NatToString(i)
  }
}
