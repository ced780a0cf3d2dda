/** The dynamically typed values an entry of the credential store holds, the
    recognised field keys, and the errors the store reports. */
module Values {

  /** One value as JSON decoding produces it, plus the int64 timestamp that
      the store itself writes under `updated`. */
  datatype Value =
    | Null                          // JSON null: a nil interface
    | Bool(b: bool)                 // JSON true/false: a kind the store never interprets
    | Str(s: string)
    | Int(i: int)                   // int64, written by touchUpdated
    | Float(f: real)                // float64, how JSON numbers decode
    | List(items: seq<Value>)
    | Obj(fields: map<string, Value>)

  /** The field map of one entry (or of one snapshot). */
  type Fields = map<string, Value>

  const KeyUser := "user"
  const KeyPass := "pass"
  const KeyTwoFactor := "twofactor"
  const KeyNotes := "notes"
  const KeyLabels := "labels"
  const KeyUpdated := "updated"
  const KeySnapshots := "snapshots"

  /** Keys that the generic string setter refuses, in the source's order. */
  const ProtectedKeys: seq<string> := [KeyTwoFactor, KeyNotes, KeyUpdated, KeyLabels, KeySnapshots]

  datatype Error =
    | NotFound(name: string)            // get: no entry of that name (a panic in the source)
    | BadEntry(name: string)            // get: the entry is not an object (a panic)
    | WrongKind(key: string)            // a failed type assertion on a field (a panic)
    | BadList(key: string)              // getSlice: the field is not a list
    | BadItem(key: string, index: nat)  // getSlice: the element at index is not a string
    | NoSnapshots                       // Snapshot on an entry without history
    | BadHistory                        // `snapshots` is not a list
    | SnapshotRange(count: nat, asked: int)
    | BadSnapshot(position: nat)        // the selected history element is not an object
    | ProtectedKey(key: string)         // Set on a protected key (a panic)
    | BadTwoFactorUri                   // the one-time-code URI does not parse
    | NotTotp                           // the URI holds a seed that is not time-based
    | CodeFailed                        // code generation reported an error

  datatype Result<T> = Ok(value: T) | Err(error: Error)

  datatype Outcome = Done | Fail(error: Error)

  datatype Option<T> = None | Some(value: T)

  /** ASCII lower-casing of one character. */
  function LowerChar(c: char): (r: char)
    ensures 'A' <= c <= 'Z' ==> r as int == c as int + 32
    ensures !('A' <= c <= 'Z') ==> r == c
    ensures !('A' <= r <= 'Z')
  {
    if 'A' <= c <= 'Z' then (c as int + 32) as char else c
  }

  /** strings.ToLower, restricted to ASCII. */
  function Lower(s: string): (r: string)
    ensures |r| == |s|
    ensures forall i :: 0 <= i < |s| ==> r[i] == LowerChar(s[i])
  {
    seq(|s|, i requires 0 <= i < |s| => LowerChar(s[i]))
  }

  lemma LowerIdempotent(s: string)
    ensures Lower(Lower(s)) == Lower(s)
  {
  }

  predicate HasPrefix(s: string, prefix: string) {
    |prefix| <= |s| && s[..|prefix|] == prefix
  }

  /** fmt's %d for a natural number: no sign and no leading zero. */
  function Decimal(n: nat): (r: string)
    ensures |r| >= 1
    ensures forall i :: 0 <= i < |r| ==> '0' <= r[i] <= '9'
    ensures DecimalValue(r) == n
    ensures r[0] == '0' <==> n == 0
    ensures |r| > 1 ==> r[0] != '0'
  {
    if n < 10 then [Digit(n)] else Decimal(n / 10) + [Digit(n % 10)]
  }

  function Digit(d: nat): (c: char)
    requires d < 10
    ensures '0' <= c <= '9' && c as int - '0' as int == d
  {
    ('0' as int + d) as char
  }

  /** The number a string of decimal digits denotes. */
  function DecimalValue(s: string): nat
    requires forall i :: 0 <= i < |s| ==> '0' <= s[i] <= '9'
  {
    if s == [] then 0
    else DecimalValue(s[..|s| - 1]) * 10 + (s[|s| - 1] as int - '0' as int)
  }
}
