/**
 * Shared vocabulary of the model: optional values and results, a JSON value
 * type, and the few Python string operations the agent relies on
 * (`str.lower` on ASCII, `str.strip`, slicing `s[:n]`, `str.join`,
 * `str(int)`), each written out so that its edge cases are explicit.
 */
module Common {

  datatype Option<+T> = None | Some(value: T)

  /** Either a value or the exception the source would raise instead. */
  datatype Result<+T, +E> = Ok(value: T) | Err(error: E)

  /**
   * A JSON document as `json.loads` produces it (objects keep their member
   * order, as Python dicts do). Floating-point numbers are not modelled.
   */
  datatype Json =
    | JNull
    | JBool(b: bool)
    | JInt(i: int)
    | JStr(s: string)
    | JArr(items: seq<Json>)
    | JObj(members: seq<(string, Json)>)

  /**
   * A notification hook (`on_new_pending`, `on_new_request`): absent, or a
   * callback that returns or raises. The registries only hand it a copy of
   * the new entry and swallow what it raises.
   */
  datatype Hook = NoHook | Callback(raises: bool)

  /** A Python dict of JSON values (`Dict[str, Any]`): its items in insertion order. */
  type Dict = seq<(string, Json)>

  /** Keyword arguments of a tool call. */
  type Args = Dict

  /** `d[key] = value`: an existing key keeps its place and takes the new value; a new key goes last. */
  function SetKey<V>(d: seq<(string, V)>, key: string, value: V): (r: seq<(string, V)>)
    ensures Member(r, key) == Some(value)
    ensures forall k :: k != key ==> Member(r, k) == Member(d, k)
    ensures |r| == |d| || r == d + [(key, value)]
  {
    if d == [] then [(key, value)]
    else if d[0].0 == key then [(key, value)] + d[1..]
    else [d[0]] + SetKey(d[1..], key, value)
  }

  /** `dict.get(key)` on a dict given by its items: the value of the first item named `key`. */
  function Member<V>(members: seq<(string, V)>, key: string): Option<V>
  {
    if |members| == 0 then None
    else if members[0].0 == key then Some(members[0].1)
    else Member(members[1..], key)
  }

  /** The value found is the one of an item named `key`, and there is one exactly when some item has that name. */
  lemma {:induction false} MemberFound<V>(members: seq<(string, V)>, key: string)
    ensures Member(members, key).Some? <==> exists i :: 0 <= i < |members| && members[i].0 == key
    ensures Member(members, key).Some? ==> exists i :: 0 <= i < |members| && members[i] == (key, Member(members, key).value)
    decreases |members|
  {
    if |members| > 0 && members[0].0 != key {
      MemberFound(members[1..], key);
      assert forall i :: 1 <= i < |members| ==> members[i] == members[1..][i - 1];
      if Member(members, key).Some? {
        var i :| 0 <= i < |members[1..]| && members[1..][i] == (key, Member(members, key).value);
        assert members[i + 1] == (key, Member(members, key).value);
      }
    }
  }

  /** `dict.get(key, default)`. */
  function MemberOr<V>(members: seq<(string, V)>, key: string, default: V): V
  {
    match Member(members, key)
    case Some(v) => v
    case None => default
  }

  /** Python truthiness of a JSON value: `None`, `False`, `0`, `""`, `[]` and `{}` are false. */
  predicate Truthy(j: Json)
  {
    match j
    case JNull => false
    case JBool(b) => b
    case JInt(i) => i != 0
    case JStr(s) => s != ""
    case JArr(items) => items != []
    case JObj(members) => members != []
  }

  // ---------------------------------------------------------------------------
  // Python string operations
  // ---------------------------------------------------------------------------

  /** No two positions of `s` hold the same element. */
  ghost predicate Distinct<T>(s: seq<T>)
  {
    forall i, j :: 0 <= i < j < |s| ==> s[i] != s[j]
  }

  /** `str.lower()` restricted to ASCII letters; other characters are kept. */
  function LowerChar(c: char): char
  {
    if 'A' <= c <= 'Z' then (c as int + 32) as char else c
  }

  function Lower(s: string): string
  {
    seq(|s|, i requires 0 <= i < |s| => LowerChar(s[i]))
  }

  /** The characters for which Python's `str.isspace()` holds. */
  predicate IsSpace(c: char)
  {
    ('\t' <= c <= '\r') || ('\U{1C}' <= c <= ' ') || c == '\U{85}' || c == '\U{A0}'
    || c == '\U{1680}' || ('\U{2000}' <= c <= '\U{200A}') || c == '\U{2028}' || c == '\U{2029}'
    || c == '\U{202F}' || c == '\U{205F}' || c == '\U{3000}'
  }

  /** `str.lstrip()`: drop leading whitespace. */
  function StripLeft(s: string): string
  {
    if s != [] && IsSpace(s[0]) then StripLeft(s[1..]) else s
  }

  /** `str.rstrip()`: drop trailing whitespace. */
  function StripRight(s: string): string
  {
    if s != [] && IsSpace(s[|s| - 1]) then StripRight(s[..|s| - 1]) else s
  }

  /** `str.strip()`. */
  function Strip(s: string): string
  {
    StripRight(StripLeft(s))
  }

  /** `lstrip` keeps a suffix that does not start with whitespace, and drops only whitespace. */
  lemma {:induction false} StripLeftKeepsSuffix(s: string)
    ensures var r := StripLeft(s);
            |r| <= |s| && r == s[|s| - |r|..] && (r == [] || !IsSpace(r[0]))
            && forall i :: 0 <= i < |s| - |r| ==> IsSpace(s[i])
    decreases |s|
  {
    if s != [] && IsSpace(s[0]) {
      StripLeftKeepsSuffix(s[1..]);
      var r := StripLeft(s);
      assert s[1..][|s[1..]| - |r|..] == s[|s| - |r|..];
      forall i | 1 <= i < |s| - |r| ensures IsSpace(s[i]) {
        assert s[1..][i - 1] == s[i];
      }
    }
  }

  /** `rstrip` keeps a prefix that does not end in whitespace, and drops only whitespace. */
  lemma {:induction false} StripRightKeepsPrefix(s: string)
    ensures var r := StripRight(s);
            |r| <= |s| && r == s[..|r|] && (r == [] || !IsSpace(r[|r| - 1]))
            && forall i :: |r| <= i < |s| ==> IsSpace(s[i])
    decreases |s|
  {
    if s != [] && IsSpace(s[|s| - 1]) {
      var init := s[..|s| - 1];
      StripRightKeepsPrefix(init);
      var r := StripRight(s);
      assert init[..|r|] == s[..|r|];
      forall i | |r| <= i < |s| - 1 ensures IsSpace(s[i]) {
        assert init[i] == s[i];
      }
    }
  }

  /** `strip` leaves no whitespace at either end. */
  lemma StripTrims(s: string)
    ensures var r := Strip(s);
            |r| <= |s| && (r == [] || (!IsSpace(r[0]) && !IsSpace(r[|r| - 1])))
  {
    StripLeftKeepsSuffix(s);
    StripRightKeepsPrefix(StripLeft(s));
  }

  /** `s.startswith(p)`. */
  predicate StartsWith(s: string, p: string)
  {
    |p| <= |s| && s[..|p|] == p
  }

  /** `s[:n]` for a non-negative `n`: the first `n` characters, or all of `s`. */
  function Take<T>(s: seq<T>, n: nat): seq<T>
  {
    if n < |s| then s[..n] else s
  }

  /** `s[start:]` for any integer `start`: a negative start counts from the end. */
  function SliceFrom<T>(s: seq<T>, start: int): (r: seq<T>)
    ensures start >= 0 ==> r == if start < |s| then s[start..] else []
    ensures start < 0 ==> r == if -start < |s| then s[|s| + start..] else s
  {
    if start >= 0 then (if start < |s| then s[start..] else [])
    else if -start < |s| then s[|s| + start..] else s
  }

  /**
   * `s[-n:]`: for a positive `n`, the last `n` elements (all of them when
   * there are fewer); since `-0 == 0`, for `n == 0` it is all of `s`.
   */
  function LastN<T>(s: seq<T>, n: int): (r: seq<T>)
    ensures n > 0 ==> |r| == (if n < |s| then n else |s|) && r == s[|s| - |r|..]
    ensures n == 0 ==> r == s
  {
    SliceFrom(s, -n)
  }

  /** `s[-count:] if s else []`: the last `count` elements, and none of an empty list. */
  function Recent<T>(s: seq<T>, count: int): (r: seq<T>)
    ensures s == [] ==> r == []
    ensures count > 0 ==> |r| == (if count < |s| then count else |s|) && r == s[|s| - |r|..]
  {
    if s == [] then [] else LastN(s, count)
  }

  /** `sep.join(parts)`. */
  function Join(sep: string, parts: seq<string>): (r: string)
    ensures parts == [] ==> r == ""
    ensures |parts| == 1 ==> r == parts[0]
  {
    if |parts| == 0 then ""
    else if |parts| == 1 then parts[0]
    else parts[0] + sep + Join(sep, parts[1..])
  }

  /** `sep.join(parts)` of non-empty parts begins with the first part. */
  lemma {:induction false} JoinStartsWithFirst(sep: string, parts: seq<string>)
    requires parts != []
    ensures |Join(sep, parts)| >= |parts[0]| && Join(sep, parts)[..|parts[0]|] == parts[0]
  {
    if |parts| > 1 {
      var rest := Join(sep, parts[1..]);
      assert Join(sep, parts) == parts[0] + (sep + rest);
    }
  }

  /** `c * n` for a one-character string `c`. */
  function Repeat(c: char, n: nat): (r: string)
    ensures |r| == n && forall i :: 0 <= i < n ==> r[i] == c
  {
    if n == 0 then "" else [c] + Repeat(c, n - 1)
  }

  function DigitChar(d: nat): char
    requires d < 10
  {
    ('0' as int + d) as char
  }

  /** `str(n)` for a natural number: its decimal digits, most significant first. */
  function NatToString(n: nat): (r: string)
    ensures |r| >= 1 && forall i :: 0 <= i < |r| ==> '0' <= r[i] <= '9'
    decreases n
  {
    if n < 10 then [DigitChar(n)] else NatToString(n / 10) + [DigitChar(n % 10)]
  }

  /** `str(i)` for an integer. */
  function IntToString(i: int): (r: string)
    ensures |r| >= 1
    ensures i < 0 <==> r[0] == '-'
  {
    if i < 0 then "-" + NatToString(-i) else NatToString(i)
  }

  /** The index of the first occurrence of `c` in `s`, if any (`s.find(c)`). */
  function IndexOf(s: string, c: char): (r: Option<nat>)
    ensures r.None? <==> c !in s
    ensures r.Some? ==> r.value < |s| && s[r.value] == c && c !in s[..r.value]
  {
    if |s| == 0 then None
    else if s[0] == c then Some(0)
    else
      match IndexOf(s[1..], c)
      case None => None
      case Some(k) =>
        assert s[..k + 1] == [s[0]] + s[1..][..k];
        Some(k + 1)
  }

  // ---------------------------------------------------------------------------
  // str() and repr() of JSON values
  // ---------------------------------------------------------------------------

  /** The quote `repr` puts around a string: double quotes only when it holds a single quote and no double quote. */
  function QuoteFor(s: string): char
  {
    if '\'' in s && '"' !in s then '"' else '\''
  }

  /** The body of a string's `repr`: backslashes, the chosen quote and the common control characters escaped. */
  function Escape(s: string, q: char): (r: string)
    ensures |r| >= |s|
  {
    if s == [] then ""
    else
      var c := s[0];
      var e := if c == '\\' then "\\\\"
               else if c == q then ['\\', q]
               else if c == '\n' then "\\n"
               else if c == '\r' then "\\r"
               else if c == '\t' then "\\t"
               else [c];
      e + Escape(s[1..], q)
  }

  function QuoteRepr(s: string): (r: string)
    ensures |r| >= 2 && (r[0] == '\'' || r[0] == '"') && r[|r| - 1] == r[0]
  {
    var q := QuoteFor(s);
    [q] + Escape(s, q) + [q]
  }

  /** `repr(v)` of a JSON value as Python prints it (a list in brackets, a dict in braces). */
  function PyRepr(j: Json): (r: string)
    ensures r != ""
    decreases j
  {
    match j
    case JNull => "None"
    case JBool(b) => if b then "True" else "False"
    case JInt(i) => IntToString(i)
    case JStr(s) => QuoteRepr(s)
    case JArr(items) => "[" + Join(", ", seq(|items|, i requires 0 <= i < |items| => PyRepr(items[i]))) + "]"
    case JObj(ms) =>
      "{" + Join(", ", seq(|ms|, i requires 0 <= i < |ms| => QuoteRepr(ms[i].0) + ": " + PyRepr(ms[i].1))) + "}"
  }

  /** `str(v)`: a string is itself, anything else is its `repr`. */
  function PyStr(j: Json): string
  {
    if j.JStr? then j.s else PyRepr(j)
  }

  /** `', '.join(f"{k}={v}" for k, v in d.items())`. */
  function KeywordList(d: Dict): (r: string)
    ensures d == [] ==> r == ""
  {
    Join(", ", seq(|d|, i requires 0 <= i < |d| => d[i].0 + "=" + PyStr(d[i].1)))
  }
}
