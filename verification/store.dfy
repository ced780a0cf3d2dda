/** The store: a map from entry name to decoded entry, with name search and
    the setters. In the source a Blob's field map aliases the store's
    record, so the in-place updates done through it are updates of the
    store's entry; here they are written as updates of `entries[name]`. */
module Store {
  import opened Values
  import opened Search
  import opened Entry

  class Blobs {
    var entries: map<string, Value>

    /** A store over an already decoded object of objects. */
    constructor (decoded: map<string, Value>)
      ensures entries == decoded
    {
      entries := decoded;
    }

    /** Get/get: the entry's view, or why there is none. */
    function Get(name: string): (r: Result<Blob>)
      reads this
      ensures r.Ok? <==> name in entries && entries[name].Obj?
      ensures r.Ok? ==> r.value == Blob(name, entries[name].fields)
      ensures name !in entries ==> r == Err(NotFound(name))
      ensures name in entries && !entries[name].Obj? ==> r == Err(BadEntry(name))
    {
      if name !in entries then Err(NotFound(name))
      else if !entries[name].Obj? then Err(BadEntry(name))
      else Ok(Blob(name, entries[name].fields))
    }

    /** Find: every stored name that matches the query, each once, in no
        particular order. */
    method Find(query: string) returns (names: seq<string>)
      ensures forall n :: n in names <==> n in entries && Matches(query, n)
      ensures forall i, j :: 0 <= i < j < |names| ==> names[i] != names[j]
    {
      var fragments := Split(query);
      names := [];
      var todo := entries.Keys;
      label AllKeys:
      while todo != {}
        invariant todo <= entries.Keys
        invariant forall n :: n in names <==> n in entries && n !in todo && Matches(query, n)
        invariant forall i, j :: 0 <= i < j < |names| ==> names[i] != names[j]
        decreases todo
      {
        var k :| k in todo;
        todo := todo - {k};
        var keyFrags := Split(k);
        if |keyFrags| != |fragments| {
          continue;
        }
        for i := 0 to |fragments|
          invariant forall j :: 0 <= j < i ==> FoldMatch(fragments[j], keyFrags[j])
        {
          var ok := MatchFold(fragments[i], keyFrags[i]);
          if !ok {
            continue AllKeys;
          }
        }
        names := names + [k];
      }
    }

    /** touchUpdated: `updated` of the entry becomes `now`. */
    method TouchUpdated(name: string, now: int)
      requires Get(name).Ok?
      modifies this
      ensures entries == old(entries)[name := Obj(Touched(old(entries)[name].fields, now))]
    {
      var fields := entries[name].fields;
      entries := entries[name := Obj(fields[KeyUpdated := Int(now)])];
    }

    /** addSnapshot: the history copy of the entry is appended to its
        history list; a `snapshots` field that is not a list is dropped. */
    method AddSnapshot(name: string)
      requires Get(name).Ok?
      modifies this
      ensures entries == old(entries)[name := Obj(AddedSnapshot(old(entries)[name].fields))]
    {
      var blob := Blob(name, entries[name].fields);
      var snaps: seq<Value>;
      if KeySnapshots !in blob.fields {
        snaps := [];
      } else if blob.fields[KeySnapshots].List? {
        snaps := blob.fields[KeySnapshots].items;
      } else {
        snaps := [];
      }
      var snap := blob.Capture();
      entries := entries[name := Obj(blob.fields[KeySnapshots := List(snaps + [Obj(snap)])])];
    }

    /** Set: a string under any key that is not protected (compared after
        lower-casing), after a snapshot and a touch. */
    method Set(name: string, key: string, value: string, now: int) returns (r: Outcome)
      modifies this
      ensures old(Get(name)).Err? ==> r == Fail(old(Get(name)).error) && entries == old(entries)
      ensures old(Get(name)).Ok? && IsProtected(Lower(key)) ==>
        r == Fail(ProtectedKey(Lower(key))) && entries == old(entries)
      ensures old(Get(name)).Ok? && !IsProtected(Lower(key)) ==>
        r == Done && entries == old(entries)[name := Obj(SetFields(old(entries)[name].fields, key, value, now))]
    {
      var got := Get(name);
      if got.Err? {
        return Fail(got.error);
      }
      var k := Lower(key);
      for i := 0 to |ProtectedKeys|
        invariant k !in ProtectedKeys[..i]
      {
        if k == ProtectedKeys[i] {
          return Fail(ProtectedKey(k));
        }
      }
      AddSnapshot(name);
      TouchUpdated(name, now);
      entries := entries[name := Obj(entries[name].fields[k := Str(value)])];
      r := Done;
    }

    /** SetTwofactor: the normalised URI is stored, after a snapshot and a
        touch, only when it parses; otherwise nothing changes. */
    method SetTwofactor(name: string, uriOrKey: string, now: int, parse: string -> Option<OtpKey>,
                        pathEscape: string -> string, queryEscape: string -> string) returns (r: Outcome)
      modifies this
      ensures old(Get(name)).Err? ==> r == Fail(old(Get(name)).error) && entries == old(entries)
      ensures old(Get(name)).Ok? ==>
        var uri := TwofactorUri(name, uriOrKey, pathEscape, queryEscape);
        if parse(uri).None? then r == Fail(BadTwoFactorUri) && entries == old(entries)
        else r == Done && entries == old(entries)[name := Obj(TwofactorFields(old(entries)[name].fields, uri, now))]
    {
      var got := Get(name);
      if got.Err? {
        return Fail(got.error);
      }
      var uri: string;
      if HasPrefix(uriOrKey, OtpScheme) {
        uri := uriOrKey;
      } else {
        uri := OtpScheme + "totp/" + pathEscape(AppTag + name) + "?secret=" + queryEscape(uriOrKey);
      }
      if parse(uri).None? {
        return Fail(BadTwoFactorUri);
      }
      AddSnapshot(name);
      TouchUpdated(name, now);
      entries := entries[name := Obj(entries[name].fields[KeyTwoFactor := Str(uri)])];
      r := Done;
    }

    /** SetNotes: the notes are replaced and the entry touched; no snapshot. */
    method SetNotes(name: string, notes: seq<string>, now: int) returns (r: Outcome)
      modifies this
      ensures old(Get(name)).Err? ==> r == Fail(old(Get(name)).error) && entries == old(entries)
      ensures old(Get(name)).Ok? ==>
        r == Done && entries == old(entries)[name := Obj(NotesFields(old(entries)[name].fields, notes, now))]
    {
      var got := Get(name);
      if got.Err? {
        return Fail(got.error);
      }
      var converted := ToValues(notes);
      TouchUpdated(name, now);
      entries := entries[name := Obj(entries[name].fields[KeyNotes := List(converted)])];
      r := Done;
    }

    /** SetLabels: the labels are replaced and the entry touched; no snapshot. */
    method SetLabels(name: string, labels: seq<string>, now: int) returns (r: Outcome)
      modifies this
      ensures old(Get(name)).Err? ==> r == Fail(old(Get(name)).error) && entries == old(entries)
      ensures old(Get(name)).Ok? ==>
        r == Done && entries == old(entries)[name := Obj(LabelsFields(old(entries)[name].fields, labels, now))]
    {
      var got := Get(name);
      if got.Err? {
        return Fail(got.error);
      }
      var converted := ToValues(labels);
      TouchUpdated(name, now);
      entries := entries[name := Obj(entries[name].fields[KeyLabels := List(converted)])];
      r := Done;
    }
  }
}
