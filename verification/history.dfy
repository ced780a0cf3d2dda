/** What the setters and the snapshot engine promise, stated through the
    entry accessors: how the history grows, what its newest element holds,
    which fields each setter changes, and what it leaves alone. */
module History {
  import opened Values
  import opened Entry

  /** getSlice reads back exactly the strings SetNotes/SetLabels store ... */
  lemma {:induction false} TextsRoundTrip(key: string, ss: seq<string>)
    ensures TextsOf(key, Texts(ss)) == Ok(ss)
  {
    var r := TextsOf(key, Texts(ss));
    assert r.Ok?;
    assert r.value == ss;
  }

  /** ... and a list getSlice accepts is the stored form of what it returns. */
  lemma {:induction false} TextsOfInverse(key: string, items: seq<Value>)
    requires TextsOf(key, items).Ok?
    ensures Texts(TextsOf(key, items).value) == items
  {
  }

  /** addSnapshot grows a list history by exactly one; a history of any
      other kind is replaced by a list holding only the new snapshot. */
  lemma AddSnapshotCount(b: Blob)
    ensures Blob(b.name, AddedSnapshot(b.fields)).NSnapshots()
         == Ok(if b.NSnapshots().Ok? then b.NSnapshots().value + 1 else 1)
  {
  }

  /** The newest snapshot is the history copy of the state before the change. */
  lemma NewestSnapshotIsPriorState(b: Blob)
    ensures Blob(b.name, AddedSnapshot(b.fields)).Snapshot(0)
         == Ok(Blob(b.name + ":snap" + Decimal(|PriorSnapshots(b.fields)|), Captured(b.fields)))
  {
  }

  /** Every earlier snapshot is kept, one step further back, under the same name. */
  lemma OlderSnapshotsKept(b: Blob, index: int)
    requires KeySnapshots in b.fields && b.fields[KeySnapshots].List?
    requires 0 <= index < |b.fields[KeySnapshots].items|
    ensures Blob(b.name, AddedSnapshot(b.fields)).Snapshot(index + 1) == b.Snapshot(index)
  {
  }

  /** No snapshot holds a history of its own: the new one is a history
      copy, and the older ones are kept as they were. */
  lemma SnapshotsHoldNoHistory(b: Blob, index: int)
    requires forall v :: v in PriorSnapshots(b.fields) && v.Obj? ==> KeySnapshots !in v.fields
    ensures var a := Blob(b.name, AddedSnapshot(b.fields));
      a.Snapshot(index).Ok? ==> KeySnapshots !in a.Snapshot(index).value.fields
  {
    var a := Blob(b.name, AddedSnapshot(b.fields));
    var items := PriorSnapshots(b.fields) + [Obj(Captured(b.fields))];
    if a.Snapshot(index).Ok? {
      var position := |items| - 1 - index;
      if position < |items| - 1 {
        assert items[position] in PriorSnapshots(b.fields);
      }
    }
  }

  /** Asking one past the oldest snapshot is a range error. */
  lemma SnapshotPastEndFails(b: Blob)
    requires b.NSnapshots().Ok?
    ensures b.Snapshot(b.NSnapshots().value).Err?
  {
  }

  /** Set: the key holds the value, `updated` is now, the history grew by the
      prior state, and every other field is as it was. */
  lemma SetEffects(b: Blob, key: string, value: string, now: int)
    requires !IsProtected(Lower(key))
    ensures var a := Blob(b.name, SetFields(b.fields, key, value, now));
      && a.fields.Keys == b.fields.Keys + {Lower(key), KeyUpdated, KeySnapshots}
      && a.fields[Lower(key)] == Str(value)
      && a.Updated() == Unix(now)
      && a.NSnapshots() == Ok(if b.NSnapshots().Ok? then b.NSnapshots().value + 1 else 1)
      && a.Snapshot(0).Ok? && a.Snapshot(0).value.fields == Captured(b.fields)
      && forall k :: k in b.fields && k != Lower(key) && k != KeyUpdated && k != KeySnapshots ==>
           a.fields[k] == b.fields[k]
  {
    assert Lower(key) != KeyUpdated && Lower(key) != KeySnapshots by {
      assert ProtectedKeys[2] == KeyUpdated && ProtectedKeys[4] == KeySnapshots;
    }
  }

  /** Set on "user" (in any case) is what User then reads. */
  lemma SetUserReadsBack(b: Blob, key: string, value: string, now: int)
    requires Lower(key) == KeyUser
    ensures Blob(b.name, SetFields(b.fields, key, value, now)).User() == Ok(value)
  {
    assert !IsProtected(KeyUser);
    SetEffects(b, key, value, now);
  }

  /** Two changes of the user: two more snapshots, and the newest shows the
      value the second change replaced. */
  lemma HistoryOrdering(b: Blob, t1: int, t2: int)
    requires b.NSnapshots().Ok?
    ensures var once := Blob(b.name, SetFields(b.fields, KeyUser, "a", t1));
      var twice := Blob(b.name, SetFields(once.fields, KeyUser, "b", t2));
      && twice.NSnapshots() == Ok(b.NSnapshots().value + 2)
      && twice.User() == Ok("b")
      && twice.Snapshot(0).Ok? && twice.Snapshot(0).value.User() == Ok("a")
  {
    assert Lower(KeyUser) == KeyUser;
    assert !IsProtected(KeyUser);
    var once := Blob(b.name, SetFields(b.fields, KeyUser, "a", t1));
    SetEffects(b, KeyUser, "a", t1);
    SetEffects(once, KeyUser, "b", t2);
    assert once.fields[KeyUser] == Str("a");
  }

  /** As the source writes Set, the value lands under the entry's name and
      the key is left as it was: setting "user" to "new" on entry "site"
      leaves User at "old". */
  lemma SetAsWrittenMissesTheKey()
    ensures var b := Blob("site", map[KeyUser := Str("old")]);
      var a := Blob(b.name, SetFieldsAsWritten(b.fields, b.name, KeyUser, "new", 0));
      && a.User() == Ok("old")
      && a.fields["site"] == Str("new")
  {
    var b := Blob("site", map[KeyUser := Str("old")]);
    assert "site" != KeyUser && "site" != KeyUpdated;
    assert AddedSnapshot(b.fields)[KeyUser] == Str("old");
  }

  /** SetNotes: the notes read back as given, `updated` is now, the history
      is untouched, and every other field is as it was. */
  lemma SetNotesEffects(b: Blob, notes: seq<string>, now: int)
    ensures var a := Blob(b.name, NotesFields(b.fields, notes, now));
      && a.fields.Keys == b.fields.Keys + {KeyNotes, KeyUpdated}
      && a.Slice(KeyNotes) == Ok(notes)
      && a.Updated() == Unix(now)
      && a.NSnapshots() == b.NSnapshots()
      && forall k :: k in b.fields && k != KeyNotes && k != KeyUpdated ==> a.fields[k] == b.fields[k]
  {
    TextsRoundTrip(KeyNotes, notes);
  }

  /** SetLabels: the same, for the labels. */
  lemma SetLabelsEffects(b: Blob, labels: seq<string>, now: int)
    ensures var a := Blob(b.name, LabelsFields(b.fields, labels, now));
      && a.fields.Keys == b.fields.Keys + {KeyLabels, KeyUpdated}
      && a.Slice(KeyLabels) == Ok(labels)
      && a.Updated() == Unix(now)
      && a.NSnapshots() == b.NSnapshots()
      && forall k :: k in b.fields && k != KeyLabels && k != KeyUpdated ==> a.fields[k] == b.fields[k]
  {
    TextsRoundTrip(KeyLabels, labels);
  }

  /** SetTwofactor: what is stored always parses, so reading the code back
      can only fail on the seed's type or on code generation (a seed that
      parses but is not time-based is stored all the same); the history
      grew and `updated` is now. */
  lemma SetTwofactorEffects(b: Blob, uri: string, now: int, parse: string -> Option<OtpKey>,
                            generate: (string, int) -> Option<string>, t: int)
    requires parse(uri).Some?
    ensures var a := Blob(b.name, TwofactorFields(b.fields, uri, now));
      && a.fields[KeyTwoFactor] == Str(uri)
      && a.TwoFactor(parse, generate, t) != Err(BadTwoFactorUri)
      && a.TwoFactor(parse, generate, t) != Err(WrongKind(KeyTwoFactor))
      && (parse(uri).value.kind == "totp" && generate(parse(uri).value.secret, t).Some? ==>
            a.TwoFactor(parse, generate, t) == Ok(generate(parse(uri).value.secret, t).value))
      && (parse(uri).value.kind != "totp" ==> a.TwoFactor(parse, generate, t) == Err(NotTotp))
      && a.Updated() == Unix(now)
      && a.NSnapshots() == Ok(if b.NSnapshots().Ok? then b.NSnapshots().value + 1 else 1)
  {
  }
}
