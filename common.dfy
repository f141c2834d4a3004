/** Values shared by every part of the model: record ids, optional values,
    JSON request bodies with JavaScript truthiness, the reply of a handler,
    and the string helpers `split` / `join`. */
module Common {

  /** Database ids. One counter hands them out in increasing order, so a
      collection's natural (insertion) order is ascending id order. */
  type Id = nat

  datatype Option<+T> = None | Some(value: T)

  /** A value of a parsed JSON request body. */
  datatype Json =
    | JNull
    | JBool(b: bool)
    | JNum(n: real)
    | JStr(s: string)
    | JArr(items: seq<Json>)
    | JObj(fields: map<string, Json>)

  /** JavaScript truthiness of a JSON value (NaN cannot occur in JSON). */
  predicate Truthy(v: Json)
  {
    match v
    case JNull => false
    case JBool(b) => b
    case JNum(n) => n != 0.0
    case JStr(s) => s != ""
    case JArr(_) => true
    case JObj(_) => true
  }

  /** Truthiness of an optional string field (`undefined` is falsy). */
  predicate Given(s: Option<string>)
  {
    s.Some? && s.value != ""
  }

  /** A string's JavaScript `length`: its count of UTF-16 code units. A
      character outside the Basic Multilingual Plane takes a surrogate
      pair, so it counts twice. */
  function Utf16Length(s: string): (n: nat)
    ensures |s| <= n <= 2 * |s|
    ensures n == |s| <==> forall i :: 0 <= i < |s| ==> s[i] as int < 0x1_0000
    ensures n == 2 * |s| <==> forall i :: 0 <= i < |s| ==> s[i] as int >= 0x1_0000
  {
    if s == [] then 0
    else (if s[0] as int < 0x1_0000 then 1 else 2) + Utf16Length(s[1..])
  }

  /** `parseInt(x) || fallback`, where `None` stands for NaN or a missing
      parameter: a parse that yields 0 or NaN falls back. */
  function IntOr(parsed: Option<int>, fallback: int): (r: int)
    ensures r == fallback || (parsed.Some? && r == parsed.value && r != 0)
    ensures parsed.Some? && parsed.value != 0 ==> r == parsed.value
  {
    if parsed.Some? && parsed.value != 0 then parsed.value else fallback
  }

  /** The magnitude the database driver takes for a negative limit. */
  function Abs(n: int): (r: nat)
    ensures r == n || r == -n
  {
    if n < 0 then -n else n
  }

  /** The schema paths a validation failure can name. */
  datatype Path =
    | NamePath | UsernamePath | PasswordPath | EmailPath
    | PricePath | SubjectsPath | LocationsPath | AvailabilityPath
    | StudentIdPath | TutorIdPath | SubjectPath | DatePath | DurationPath
    | StatusPath | PaymentStatusPath | RatingPath

  /** What a handler's error response carries. Mongoose validation failures
      are described by the model name and the failing paths, and database
      driver failures by a reason, rather than by the libraries' own text. */
  datatype Message =
    | Text(text: string)
    | SchemaRejected(model: string, paths: seq<Path>)
    | DriverFailure(reason: string)

  /** The HTTP outcome of a handler: a status with a JSON value, or a status
      with an error message. */
  datatype Reply<+T> = Ok(status: int, value: T) | Err(status: int, message: Message)

  /** `parts.join(sep)`. */
  function Join(parts: seq<string>, sep: string): string
  {
    if |parts| == 0 then ""
    else if |parts| == 1 then parts[0]
    else parts[0] + sep + Join(parts[1..], sep)
  }

  /** `s.split(c)` for a one-character separator: always at least one
      piece, no piece contains the separator, and joining the pieces with
      the separator gives back `s`. */
  function Split(s: string, c: char): (parts: seq<string>)
    ensures |parts| >= 1
    ensures forall i :: 0 <= i < |parts| ==> c !in parts[i]
    ensures Join(parts, [c]) == s
    decreases |s|
  {
    if s == [] then [""]
    else
      var rest := Split(s[1..], c);
      if s[0] == c then
        assert Join([""] + rest, [c]) == "" + [c] + Join(rest, [c]) by {
          assert ([""] + rest)[1..] == rest;
        }
        assert s == [c] + s[1..];
        [""] + rest
      else
        var first := [s[0]] + rest[0];
        var parts := [first] + rest[1..];
        assert parts[1..] == rest[1..];
        assert Join(parts, [c]) == [s[0]] + Join(rest, [c]) by {
          if |rest| > 1 {
            assert Join(rest, [c]) == rest[0] + [c] + Join(rest[1..], [c]);
            assert Join(parts, [c]) == first + [c] + Join(rest[1..], [c]);
          }
        }
        assert s == [s[0]] + s[1..];
        parts
  }

  /** Splitting text free of the separator, followed by the separator, gives
      that text as the first piece and then the pieces of the remainder. */
  lemma {:induction false} SplitAfterField(a: string, c: char, z: string)
    requires c !in a
    ensures Split(a + [c] + z, c) == [a] + Split(z, c)
    decreases |a|
  {
    if a == [] {
      assert a + [c] + z == [c] + z;
      assert ([c] + z)[1..] == z;
    } else {
      var s := a + [c] + z;
      assert s[0] == a[0] && s[1..] == a[1..] + [c] + z;
      SplitAfterField(a[1..], c, z);
      assert [a[0]] + a[1..] == a;
    }
  }

  /** Text without the separator is a single piece. */
  lemma {:induction false} SplitNoSeparator(a: string, c: char)
    requires c !in a
    ensures Split(a, c) == [a]
    decreases |a|
  {
    if a != [] {
      assert c !in a[1..];
      SplitNoSeparator(a[1..], c);
      assert [a[0]] + a[1..] == a;
    }
  }

  /** The first piece of `a + z` is `a` when `a` has no separator and `z`
      is empty or starts with the separator. */
  lemma {:induction false} SplitFirstField(a: string, c: char, z: string)
    requires c !in a
    requires z == [] || z[0] == c
    ensures Split(a + z, c)[0] == a
    decreases |a|
  {
    if a == [] {
      assert a + z == z;
      if z != [] {
        assert Split(z, c) == [""] + Split(z[1..], c);
      }
    } else {
      var s := a + z;
      assert s[0] == a[0] && s[1..] == a[1..] + z;
      SplitFirstField(a[1..], c, z);
      assert [a[0]] + a[1..] == a;
    }
  }
}
