/**
 A client's map on its way through a checkpoint file: every key becomes text, and both the
 writing and the reading loop visit the map in no particular order (MarshalClientState and
 UnmarshalClientState of the strategies). Two keys with the same text leave one entry, that
 of the key written last; reading stops at the first entry it cannot decode.
 */
module CheckpointMaps {
  import opened Common

  /** How keys and values are written and read. */
  datatype Format<!K, !V, !W> = Format(
    text: K -> string,
    save: V -> W,
    key: string -> Option<K>,
    value: W -> Option<V>)

  predicate Readable<K, V, W>(f: Format<K, V, W>, file: map<string, W>, s: string)
    requires s in file
  {
    f.key(s).Some? && f.value(file[s]).Some?
  }

  /** file is what some order of writing the keys outside todo leaves. */
  ghost predicate Written<K(!new), V, W>(f: Format<K, V, W>, m: map<K, V>, todo: set<K>, file: map<string, W>) {
    && (forall k :: k in m && k !in todo ==> f.text(k) in file)
    && (forall s :: s in file ==> exists k :: k in m && k !in todo && f.text(k) == s && f.save(m[k]) == file[s])
  }

  ghost predicate SavedAs<K(!new), V, W>(f: Format<K, V, W>, m: map<K, V>, file: map<string, W>) {
    Written(f, m, {}, file)
  }

  /** m is what some order of reading the entries outside todo leaves. */
  ghost predicate Taken<K(!new), V, W>(f: Format<K, V, W>, file: map<string, W>, todo: set<string>, m: map<K, V>) {
    && (forall s :: s in file && s !in todo ==> Readable(f, file, s) && f.key(s).value in m)
    && (forall k :: k in m ==> exists s :: s in file && s !in todo && f.key(s) == Some(k) && f.value(file[s]) == Some(m[k]))
  }

  ghost predicate Stopped<K, V, W>(f: Format<K, V, W>, file: map<string, W>, todo: set<string>) {
    exists s :: s in todo && s in file && !Readable(f, file, s)
  }

  /** All entries were read, or reading stopped at one of those left. */
  ghost predicate ReadAs<K(!new), V, W>(f: Format<K, V, W>, file: map<string, W>, m: map<K, V>) {
    exists todo: set<string> :: Taken(f, file, todo, m) && (todo == {} || Stopped(f, file, todo))
  }

  /** What can come back after m was saved and read again. */
  ghost predicate CanReturn<K(!new), V, W(!new)>(f: Format<K, V, W>, m: map<K, V>, r: map<K, V>) {
    exists file :: SavedAs(f, m, file) && ReadAs(f, file, r)
  }

  method Save<K(==, !new), V, W>(f: Format<K, V, W>, m: map<K, V>) returns (file: map<string, W>)
    ensures SavedAs(f, m, file)
  {
    file := map[];
    var todo := m.Keys;
    while todo != {}
      invariant todo <= m.Keys && Written(f, m, todo, file)
    {
      var k :| k in todo;
      OneWritten(f, m, todo, file, k);
      file := file[f.text(k) := f.save(m[k])];
      todo := todo - {k};
    }
  }

  lemma OneWritten<K(!new), V, W>(f: Format<K, V, W>, m: map<K, V>, todo: set<K>, file: map<string, W>, k: K)
    requires Written(f, m, todo, file) && k in todo && k in m
    ensures Written(f, m, todo - {k}, file[f.text(k) := f.save(m[k])])
  {
    forall s | s in file ensures exists x :: x in m && x !in todo - {k} && f.text(x) == s && f.save(m[x]) == file[s] {
      var x :| x in m && x !in todo && f.text(x) == s && f.save(m[x]) == file[s];
      assert x !in todo - {k};
    }
    assert k !in todo - {k};
  }

  method Read<K(==, !new), V, W>(f: Format<K, V, W>, file: map<string, W>) returns (m: map<K, V>, ok: bool)
    ensures ReadAs(f, file, m)
    ensures ok <==> forall s :: s in file ==> Readable(f, file, s)
  {
    m := map[];
    var todo := file.Keys;
    while todo != {}
      invariant todo <= file.Keys && Taken(f, file, todo, m)
    {
      var s :| s in todo;
      var k, v := f.key(s), f.value(file[s]);
      if k.None? || v.None? {
        assert Stopped(f, file, todo);
        return m, false;
      }
      OneTaken(f, file, todo, m, s);
      m := m[k.value := v.value];
      todo := todo - {s};
    }
    ok := true;
  }

  lemma OneTaken<K(!new), V, W>(f: Format<K, V, W>, file: map<string, W>, todo: set<string>, m: map<K, V>, s: string)
    requires Taken(f, file, todo, m) && s in todo && s in file && Readable(f, file, s)
    ensures Taken(f, file, todo - {s}, m[f.key(s).value := f.value(file[s]).value])
  {
    forall k | k in m
      ensures exists t :: t in file && t !in todo - {s} && f.key(t) == Some(k) && f.value(file[t]) == Some(m[k])
    {
      var t :| t in file && t !in todo && f.key(t) == Some(k) && f.value(file[t]) == Some(m[k]);
      assert t !in todo - {s};
    }
    assert s !in todo - {s};
  }

  lemma {:induction false} SomeFile<K(!new), V, W>(f: Format<K, V, W>, m: map<K, V>, todo: set<K>, begun: map<string, W>)
    returns (file: map<string, W>)
    requires todo <= m.Keys && Written(f, m, todo, begun)
    ensures SavedAs(f, m, file)
    decreases todo
  {
    if todo == {} {
      file := begun;
    } else {
      var k :| k in todo;
      OneWritten(f, m, todo, begun, k);
      file := SomeFile(f, m, todo - {k}, begun[f.text(k) := f.save(m[k])]);
    }
  }

  lemma {:induction false} SomeReading<K(!new), V, W>(f: Format<K, V, W>, file: map<string, W>, todo: set<string>, begun: map<K, V>)
    returns (m: map<K, V>)
    requires todo <= file.Keys && Taken(f, file, todo, begun)
    ensures ReadAs(f, file, m)
    decreases todo
  {
    if todo == {} || Stopped(f, file, todo) {
      m := begun;
    } else {
      var s :| s in todo;
      assert Readable(f, file, s);
      OneTaken(f, file, todo, begun, s);
      m := SomeReading(f, file, todo - {s}, begun[f.key(s).value := f.value(file[s]).value]);
    }
  }

  /** Every map has something that can come back for it. */
  lemma SomethingReturns<K(!new), V, W(!new)>(f: Format<K, V, W>, m: map<K, V>) returns (r: map<K, V>)
    ensures CanReturn(f, m, r)
  {
    var file := SomeFile(f, m, m.Keys, map[]);
    r := SomeReading(f, file, file.Keys, map[]);
  }

  /** The entry reads as an entry of m. */
  ghost predicate Faithful<K(!new), V, W>(f: Format<K, V, W>, m: map<K, V>, s: string, w: W) {
    f.key(s).Some? && f.key(s).value in m && f.value(w) == Some(m[f.key(s).value])
  }

  lemma SavedFaithfully<K(!new), V, W>(f: Format<K, V, W>, m: map<K, V>, file: map<string, W>)
    requires forall k :: k in m ==> f.key(f.text(k)) == Some(k) && f.value(f.save(m[k])) == Some(m[k])
    requires SavedAs(f, m, file)
    ensures forall s :: s in file ==> Faithful(f, m, s, file[s])
  {
    forall s | s in file ensures Faithful(f, m, s, file[s]) {
      var k :| k in m && k !in {} && f.text(k) == s && f.save(m[k]) == file[s];
    }
  }

  lemma ReadFaithfully<K(!new), V, W>(f: Format<K, V, W>, m: map<K, V>, file: map<string, W>, r: map<K, V>)
    requires (forall s :: s in file ==> Faithful(f, m, s, file[s])) && ReadAs(f, file, r)
    requires forall k :: k in m ==> f.text(k) in file && f.key(f.text(k)) == Some(k)
    ensures r == m
  {
    var todo: set<string> :| Taken(f, file, todo, r) && (todo == {} || Stopped(f, file, todo));
    forall k | k in m ensures k in r {
      assert f.text(k) in file;
    }
    forall k | k in r ensures k in m && r[k] == m[k] {
      var s :| s in file && f.key(s) == Some(k) && f.value(file[s]) == Some(r[k]);
    }
  }

  /** A map whose keys and values each survive on their own comes back whole, in any order. */
  lemma ReturnsWhole<K(!new), V, W(!new)>(f: Format<K, V, W>, m: map<K, V>, r: map<K, V>)
    requires forall k :: k in m ==> f.key(f.text(k)) == Some(k) && f.value(f.save(m[k])) == Some(m[k])
    requires CanReturn(f, m, r)
    ensures r == m
  {
    var file :| SavedAs(f, m, file) && ReadAs(f, file, r);
    SavedFaithfully(f, m, file);
    ReadFaithfully(f, m, file, r);
  }

  /** No key comes back that no text decodes to. */
  lemma ReturnedKeys<K(!new), V, W(!new)>(f: Format<K, V, W>, m: map<K, V>, r: map<K, V>, k: K)
    requires CanReturn(f, m, r) && k in r
    ensures exists s :: f.key(s) == Some(k)
  {
    var file :| SavedAs(f, m, file) && ReadAs(f, file, r);
    var s :| s in file && f.key(s) == Some(k);
  }
}
