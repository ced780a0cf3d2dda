/** One entry of the store seen through its field map: the typed accessors,
    the history copy the snapshot engine takes, and the field map each setter
    leaves behind. */
module Entry {
  import opened Values

  /** The zero time.Time, or a Unix time in seconds. */
  datatype Time = ZeroTime | Unix(seconds: int)

  /** A seed as the one-time-code URI parser reports it: its type ("totp",
      "hotp", ...) and its shared secret. */
  datatype OtpKey = OtpKey(kind: string, secret: string)

  /** Go's int64(f): the integer part, rounded toward zero. */
  function TruncateTowardZero(f: real): (r: int)
    ensures 0.0 <= f ==> 0 <= r && r as real <= f < r as real + 1.0
    ensures f < 0.0 ==> r <= 0 && r as real - 1.0 < f <= r as real
  {
    if f >= 0.0 then f.Floor else -((-f).Floor)
  }

  /** The kinds the snapshot copy keeps: string, float64, int64 and lists. */
  predicate Kept(v: Value) {
    v.Str? || v.Float? || v.Int? || v.List?
  }

  /** The history copy of a field map: every field except `snapshots`
      whose value is of a kept kind, unchanged. */
  function Captured(fields: Fields): (c: Fields)
    ensures KeySnapshots !in c
    ensures forall k :: k in c ==> k in fields && c[k] == fields[k] && Kept(c[k])
    ensures forall k :: k in fields && k != KeySnapshots && Kept(fields[k]) ==> k in c
  {
    map k | k in fields && k != KeySnapshots && Kept(fields[k]) :: fields[k]
  }

  /** The history list addSnapshot extends: the current one when it is a
      list, otherwise empty (a missing field, or one of any other kind). */
  function PriorSnapshots(fields: Fields): seq<Value> {
    if KeySnapshots in fields && fields[KeySnapshots].List? then fields[KeySnapshots].items else []
  }

  /** Converts texts to list elements, as SetNotes and SetLabels do. */
  function Texts(ss: seq<string>): (vs: seq<Value>)
    ensures |vs| == |ss|
    ensures forall i :: 0 <= i < |ss| ==> vs[i] == Str(ss[i])
  {
    seq(|ss|, i requires 0 <= i < |ss| => Str(ss[i]))
  }

  /** The loop SetNotes and SetLabels run to build the list they store. */
  method ToValues(ss: seq<string>) returns (vs: seq<Value>)
    ensures vs == Texts(ss)
  {
    vs := [];
    for i := 0 to |ss|
      invariant vs == Texts(ss[..i])
    {
      vs := vs + [Str(ss[i])];
    }
    assert ss[..|ss|] == ss;
  }

  /** The strings of items, in order, or the first index that is not one. */
  function TextsOf(key: string, items: seq<Value>): (r: Result<seq<string>>)
    ensures r.Ok? <==> forall i :: 0 <= i < |items| ==> items[i].Str?
    ensures r.Ok? ==> |r.value| == |items| && forall i :: 0 <= i < |items| ==> items[i] == Str(r.value[i])
    ensures r.Err? ==> r.error.BadItem? && r.error.key == key && r.error.index < |items|
    ensures r.Err? ==> !items[r.error.index].Str? && forall i :: 0 <= i < r.error.index ==> items[i].Str?
  {
    if items == [] then Ok([])
    else if !items[0].Str? then Err(BadItem(key, 0))
    else match TextsOf(key, items[1..])
      case Ok(rest) => Ok([items[0].s] + rest)
      case Err(e) => Err(BadItem(key, e.index + 1))
  }

  datatype Blob = Blob(name: string, fields: Fields) {

    /** The user name; "" when unset, an error when it is not a string. */
    function User(): (r: Result<string>)
      ensures KeyUser !in fields ==> r == Ok("")
      ensures KeyUser in fields ==> (r.Ok? <==> fields[KeyUser].Str?)
      ensures r.Ok? && KeyUser in fields ==> r.value == fields[KeyUser].s
      ensures r.Err? ==> r.error == WrongKind(KeyUser)
    {
      if KeyUser !in fields then Ok("")
      else if fields[KeyUser].Str? then Ok(fields[KeyUser].s)
      else Err(WrongKind(KeyUser))
    }

    /** The password; "" when unset, an error when it is not a string. */
    function Pass(): (r: Result<string>)
      ensures KeyPass !in fields ==> r == Ok("")
      ensures KeyPass in fields ==> (r.Ok? <==> fields[KeyPass].Str?)
      ensures r.Ok? && KeyPass in fields ==> r.value == fields[KeyPass].s
      ensures r.Err? ==> r.error == WrongKind(KeyPass)
    {
      if KeyPass !in fields then Ok("")
      else if fields[KeyPass].Str? then Ok(fields[KeyPass].s)
      else Err(WrongKind(KeyPass))
    }

    /** True when the field is absent or JSON null: a nil interface. */
    predicate Unset(key: string) {
      key !in fields || fields[key].Null?
    }

    /** The current one-time code: "" when no seed is stored; otherwise the
        stored URI must parse to a time-based seed, whose code at `now` is
        returned. Parsing and code generation are given as parameters. */
    function TwoFactor(parse: string -> Option<OtpKey>, generate: (string, int) -> Option<string>, now: int)
      : (r: Result<string>)
      ensures Unset(KeyTwoFactor) ==> r == Ok("")
      ensures !Unset(KeyTwoFactor) && !fields[KeyTwoFactor].Str? ==> r == Err(WrongKind(KeyTwoFactor))
      ensures r.Ok? && !Unset(KeyTwoFactor) ==>
        && fields[KeyTwoFactor].Str?
        && parse(fields[KeyTwoFactor].s).Some?
        && parse(fields[KeyTwoFactor].s).value.kind == "totp"
        && generate(parse(fields[KeyTwoFactor].s).value.secret, now) == Some(r.value)
      ensures r == Err(BadTwoFactorUri) ==>
        !Unset(KeyTwoFactor) && fields[KeyTwoFactor].Str? && parse(fields[KeyTwoFactor].s).None?
      ensures r == Err(NotTotp) ==>
        && !Unset(KeyTwoFactor) && fields[KeyTwoFactor].Str?
        && parse(fields[KeyTwoFactor].s).Some? && parse(fields[KeyTwoFactor].s).value.kind != "totp"
      ensures !Unset(KeyTwoFactor) && fields[KeyTwoFactor].Str? ==>
        var seed := parse(fields[KeyTwoFactor].s);
        && (seed.None? ==> r == Err(BadTwoFactorUri))
        && (seed.Some? && seed.value.kind != "totp" ==> r == Err(NotTotp))
        && (seed.Some? && seed.value.kind == "totp" && generate(seed.value.secret, now).Some? ==>
              r == Ok(generate(seed.value.secret, now).value))
        && (seed.Some? && seed.value.kind == "totp" && generate(seed.value.secret, now).None? ==>
              r == Err(CodeFailed))
    {
      if Unset(KeyTwoFactor) then Ok("")
      else if !fields[KeyTwoFactor].Str? then Err(WrongKind(KeyTwoFactor))
      else match parse(fields[KeyTwoFactor].s)
        case None => Err(BadTwoFactorUri)
        case Some(key) =>
          if key.kind != "totp" then Err(NotTotp)
          else match generate(key.secret, now)
            case None => Err(CodeFailed)
            case Some(code) => Ok(code)
    }

    /** What getSlice returns for `key`: nothing when unset, an error when
        the field is not a list or holds a non-string, else its strings. */
    function Slice(key: string): (r: Result<seq<string>>)
      ensures Unset(key) ==> r == Ok([])
      ensures !Unset(key) && !fields[key].List? ==> r == Err(BadList(key))
      ensures !Unset(key) && fields[key].List? ==> r == TextsOf(key, fields[key].items)
    {
      if Unset(key) then Ok([])
      else if !fields[key].List? then Err(BadList(key))
      else TextsOf(key, fields[key].items)
    }

    /** getSlice: the loop that collects the strings of a list field. */
    method GetSlice(key: string) returns (r: Result<seq<string>>)
      ensures r == Slice(key)
    {
      if Unset(key) {
        return Ok([]);
      }
      if !fields[key].List? {
        return Err(BadList(key));
      }
      var items := fields[key].items;
      var out: seq<string> := [];
      for i := 0 to |items|
        invariant |out| == i
        invariant forall j :: 0 <= j < i ==> items[j] == Str(out[j])
      {
        if !items[i].Str? {
          return Err(BadItem(key, i));
        }
        out := out + [items[i].s];
      }
      assert forall j :: 0 <= j < |items| ==> items[j].Str?;
      assert TextsOf(key, items).value == out;
      return Ok(out);
    }

    method Notes() returns (r: Result<seq<string>>)
      ensures r == Slice(KeyNotes)
    {
      r := GetSlice(KeyNotes);
    }

    method Labels() returns (r: Result<seq<string>>)
      ensures r == Slice(KeyLabels)
    {
      r := GetSlice(KeyLabels);
    }

    /** The time of the last change: zero when unset or of another kind;
        a float64 (as JSON decodes numbers) is truncated toward zero. */
    function Updated(): (t: Time)
      ensures t.Unix? <==> KeyUpdated in fields && (fields[KeyUpdated].Int? || fields[KeyUpdated].Float?)
      ensures KeyUpdated in fields && fields[KeyUpdated].Int? ==> t == Unix(fields[KeyUpdated].i)
      ensures KeyUpdated in fields && fields[KeyUpdated].Float? ==>
        t == Unix(TruncateTowardZero(fields[KeyUpdated].f))
    {
      if Unset(KeyUpdated) then ZeroTime
      else if fields[KeyUpdated].Int? then Unix(fields[KeyUpdated].i)
      else if fields[KeyUpdated].Float? then Unix(TruncateTowardZero(fields[KeyUpdated].f))
      else ZeroTime
    }

    /** The number of snapshots: 0 when unset, an error when not a list. */
    function NSnapshots(): (r: Result<nat>)
      ensures Unset(KeySnapshots) ==> r == Ok(0)
      ensures !Unset(KeySnapshots) ==> (r.Ok? <==> fields[KeySnapshots].List?)
      ensures r.Ok? && !Unset(KeySnapshots) ==> r.value == |fields[KeySnapshots].items|
      ensures r.Err? ==> r.error == BadHistory
    {
      if Unset(KeySnapshots) then Ok(0)
      else if fields[KeySnapshots].List? then Ok(|fields[KeySnapshots].items|)
      else Err(BadHistory)
    }

    /** The snapshot `index` changes ago: 0 is the most recent, the last
        element of the history list. Its name carries the position of the
        element in the list. */
    function Snapshot(index: int): (r: Result<Blob>)
      ensures Unset(KeySnapshots) ==> r == Err(NoSnapshots)
      ensures !Unset(KeySnapshots) && !fields[KeySnapshots].List? ==> r == Err(BadHistory)
      ensures r.Ok? ==>
        && !Unset(KeySnapshots) && fields[KeySnapshots].List?
        && var items := fields[KeySnapshots].items;
        && 0 <= index < |items|
        && items[|items| - 1 - index] == Obj(r.value.fields)
        && r.value.name == name + ":snap" + Decimal(|items| - 1 - index)
      ensures !Unset(KeySnapshots) && fields[KeySnapshots].List? ==>
        var items := fields[KeySnapshots].items;
        (r.Ok? <==> 0 <= index < |items| && items[|items| - 1 - index].Obj?)
        && (!(0 <= index < |items|) ==> r == Err(SnapshotRange(|items|, index)))
    {
      if Unset(KeySnapshots) then Err(NoSnapshots)
      else if !fields[KeySnapshots].List? then Err(BadHistory)
      else
        var items := fields[KeySnapshots].items;
        if index < 0 || index >= |items| then Err(SnapshotRange(|items|, index))
        else
          var position := |items| - 1 - index;
          if !items[position].Obj? then Err(BadSnapshot(position))
          else Ok(Blob(name + ":snap" + Decimal(position), items[position].fields))
    }

    /** snapshot: the loop that builds the history copy of the fields. */
    method Capture() returns (clone: Fields)
      ensures clone == Captured(fields)
    {
      clone := map[];
      var todo := fields.Keys;
      while todo != {}
        invariant todo <= fields.Keys
        invariant forall k :: k in clone <==> k in fields && k !in todo && k != KeySnapshots && Kept(fields[k])
        invariant forall k :: k in clone ==> clone[k] == fields[k]
        decreases todo
      {
        var k :| k in todo;
        todo := todo - {k};
        if k == KeySnapshots {
          continue;
        }
        match fields[k]
        case Str(_) => clone := clone[k := fields[k]];
        case Float(_) => clone := clone[k := fields[k]];
        case Int(_) => clone := clone[k := fields[k]];
        case List(items) => clone := clone[k := List(items)];
        case _ =>
      }
    }
  }

  predicate IsProtected(key: string) {
    key in ProtectedKeys
  }

  /** addSnapshot: the history copy of the current fields appended to the
      history list, which replaces a `snapshots` field of any other kind. */
  function AddedSnapshot(fields: Fields): (r: Fields)
    ensures r.Keys == fields.Keys + {KeySnapshots}
    ensures r[KeySnapshots] == List(PriorSnapshots(fields) + [Obj(Captured(fields))])
    ensures forall k :: k in fields && k != KeySnapshots ==> r[k] == fields[k]
  {
    fields[KeySnapshots := List(PriorSnapshots(fields) + [Obj(Captured(fields))])]
  }

  /** touchUpdated: `updated` becomes the current Unix time as an int64. */
  function Touched(fields: Fields, now: int): (r: Fields)
    ensures r.Keys == fields.Keys + {KeyUpdated}
    ensures r[KeyUpdated] == Int(now)
    ensures forall k :: k in fields && k != KeyUpdated ==> r[k] == fields[k]
  {
    fields[KeyUpdated := Int(now)]
  }

  /** The fields Set leaves: snapshot, touch, then the lower-cased key
      holds the value. */
  function SetFields(fields: Fields, key: string, value: string, now: int): Fields {
    Touched(AddedSnapshot(fields), now)[Lower(key) := Str(value)]
  }

  /** The fields Set leaves as the source writes it: the value goes under
      the entry's own name instead of the key. */
  function SetFieldsAsWritten(fields: Fields, name: string, key: string, value: string, now: int): Fields {
    Touched(AddedSnapshot(fields), now)[name := Str(value)]
  }

  /** The fields a successful SetTwofactor leaves. */
  function TwofactorFields(fields: Fields, uri: string, now: int): Fields {
    Touched(AddedSnapshot(fields), now)[KeyTwoFactor := Str(uri)]
  }

  /** The fields SetNotes leaves: no snapshot. */
  function NotesFields(fields: Fields, notes: seq<string>, now: int): Fields {
    Touched(fields, now)[KeyNotes := List(Texts(notes))]
  }

  /** The fields SetLabels leaves: no snapshot. */
  function LabelsFields(fields: Fields, labels: seq<string>, now: int): Fields {
    Touched(fields, now)[KeyLabels := List(Texts(labels))]
  }

  const AppTag := "upass:"
  const OtpScheme := "otpauth://"

  /** The URI SetTwofactor validates and stores: the input itself when it is
      already a one-time-code URI, otherwise a time-based URI whose label is
      the application tag and the entry name and whose secret is the input.
      Percent-escaping is given as parameters. */
  function TwofactorUri(name: string, uriOrKey: string, pathEscape: string -> string, queryEscape: string -> string)
    : (uri: string)
    ensures HasPrefix(uri, OtpScheme)
    ensures HasPrefix(uriOrKey, OtpScheme) ==> uri == uriOrKey
  {
    if HasPrefix(uriOrKey, OtpScheme) then uriOrKey
    else OtpScheme + "totp/" + pathEscape(AppTag + name) + "?secret=" + queryEscape(uriOrKey)
  }
}
