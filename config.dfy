/**
 * The `.env` credentials reader: the file text is trimmed, split into lines,
 * and every line `key=value` sets `creds[key.trim()] = value.trim()`.
 */
module Config {
  import opened Wrappers
  import opened Text

  /**
   * A line without '=': destructuring `entry.split("=")` leaves `value`
   * undefined and `value.trim()` throws.
   */
  datatype EnvError = MissingValue(line: string)

  type Credentials = map<string, string>

  /**
   * On a plain object, `creds["__proto__"] = v` calls the prototype setter,
   * which ignores a string: that key is never stored.
   */
  const ProtoKey: string := "__proto__"

  /** One line: the first two pieces of `line.split("=")`, each trimmed. */
  function Entry(line: string): (r: Result<(string, string), EnvError>)
    ensures r.Err? <==> '=' !in line
    ensures r.Err? ==> r.error == MissingValue(line)
  {
    if '=' !in line then Err(MissingValue(line))
    else
      var parts := Split(line, '=');
      assert |parts| >= 2 by {
        var i := IndexOf(line, '=');
        assert line == line[..i] + ['='] + line[i + 1..];
        SplitAtFirst(line[..i], '=', line[i + 1..]);
      }
      Ok((Trim(parts[0]), Trim(parts[1])))
  }

  /**
   * The key is the text before the first '=', the value the text between the
   * first and the second '=' (or the end of the line); anything after a
   * second '=' is dropped.
   */
  lemma EntryCutsAtSecondEquals(key: string, value: string, rest: string)
    requires '=' !in key && '=' !in value
    requires rest == [] || rest[0] == '='
    ensures Entry(key + "=" + value + rest) == Ok((Trim(key), Trim(value)))
  {
    var line := key + "=" + value + rest;
    assert line == key + ['='] + (value + rest);
    assert line[|key|] == '=';
    SplitAtFirst(key, '=', value + rest);
    SplitHead(value, '=', rest);
  }

  type Parsed = Result<(string, string), EnvError>

  /** Each line parsed on its own. */
  function Entries(lines: seq<string>): seq<Parsed> {
    seq(|lines|, i requires 0 <= i < |lines| => Entry(lines[i]))
  }

  /**
   * The assignments `creds[key] = value` in order, stopping at the first line
   * that throws; an assignment to `__proto__` leaves the object unchanged.
   */
  function Fold(entries: seq<Parsed>): Result<Credentials, EnvError>
    decreases |entries|
  {
    if entries == [] then Ok(map[])
    else
      var before := Fold(entries[..|entries| - 1]);
      if before.Err? then before
      else
        match entries[|entries| - 1]
        case Err(e) => Err(e)
        case Ok(kv) => if kv.0 == ProtoKey then before else Ok(before.value[kv.0 := kv.1])
  }

  /** The credentials after the lines in order, or the error of the first line without '='. */
  function Load(lines: seq<string>): Result<Credentials, EnvError> {
    Fold(Entries(lines))
  }

  /** `loadCredentials` on the text of the `.env` file. */
  function ParseEnv(text: string): Result<Credentials, EnvError> {
    Load(Split(Trim(text), '\n'))
  }

  /** Once a prefix of the entries has failed, the whole fold fails with the same error. */
  lemma {:induction false} FoldErrorPersists(entries: seq<Parsed>, n: nat)
    requires n <= |entries|
    requires Fold(entries[..n]).Err?
    ensures Fold(entries) == Fold(entries[..n])
    decreases |entries| - n
  {
    if n < |entries| {
      assert entries[..n + 1][..n] == entries[..n];
      FoldErrorPersists(entries, n + 1);
    } else {
      assert entries[..n] == entries;
    }
  }

  /** `loadCredentials`: the loop over the lines, stopping at the first line without '='. */
  method LoadCredentials(text: string) returns (r: Result<Credentials, EnvError>)
    ensures r == ParseEnv(text)
  {
    var data := Trim(text);
    var lines := Split(data, '\n');
    ghost var entries := Entries(lines);
    var creds: Credentials := map[];
    var i := 0;
    while i < |lines|
      invariant 0 <= i <= |lines|
      invariant Fold(entries[..i]) == Ok(creds)
    {
      var entry := Entry(lines[i]);
      assert entries[..i + 1][..i] == entries[..i] && entries[i] == entry;
      if entry.Err? {
        FoldErrorPersists(entries, i + 1);
        return Err(entry.error);
      }
      if entry.value.0 != ProtoKey {
        creds := creds[entry.value.0 := entry.value.1];
      }
      i := i + 1;
    }
    assert entries[..i] == entries;
    r := Ok(creds);
  }

  lemma {:induction false} FoldSucceeds(entries: seq<Parsed>)
    ensures Fold(entries).Ok? <==> forall i :: 0 <= i < |entries| ==> entries[i].Ok?
    decreases |entries|
  {
    if entries != [] {
      var init := entries[..|entries| - 1];
      FoldSucceeds(init);
      assert forall i :: 0 <= i < |init| ==> init[i] == entries[i];
    }
  }

  lemma {:induction false} FoldFailsAtFirst(entries: seq<Parsed>)
    requires Fold(entries).Err?
    ensures exists i :: (0 <= i < |entries| && entries[i] == Err(Fold(entries).error) &&
      forall j :: 0 <= j < i ==> entries[j].Ok?)
    decreases |entries|
  {
    var init := entries[..|entries| - 1];
    assert forall i :: 0 <= i < |init| ==> init[i] == entries[i];
    if Fold(init).Err? {
      FoldFailsAtFirst(init);
    } else {
      FoldSucceeds(init);
      assert entries[|entries| - 1] == Err(Fold(entries).error);
    }
  }

  lemma {:induction false} FoldKeys(entries: seq<Parsed>)
    requires Fold(entries).Ok?
    ensures forall k :: k in Fold(entries).value <==>
      k != ProtoKey && exists i :: 0 <= i < |entries| && entries[i].Ok? && entries[i].value.0 == k
    decreases |entries|
  {
    if entries != [] {
      var init := entries[..|entries| - 1];
      var last := entries[|entries| - 1];
      FoldKeys(init);
      var creds := Fold(entries).value;
      assert creds == if last.value.0 == ProtoKey then Fold(init).value else Fold(init).value[last.value.0 := last.value.1];
      forall k ensures k in creds <==> k != ProtoKey && exists i :: 0 <= i < |entries| && entries[i].Ok? && entries[i].value.0 == k {
        if k in creds && k != last.value.0 {
          var i :| 0 <= i < |init| && init[i].Ok? && init[i].value.0 == k;
          assert entries[i] == init[i];
        }
        if k != ProtoKey && exists i :: 0 <= i < |entries| && entries[i].Ok? && entries[i].value.0 == k {
          var i :| 0 <= i < |entries| && entries[i].Ok? && entries[i].value.0 == k;
          if i < |init| {
            assert init[i] == entries[i];
          }
        }
      }
    }
  }

  lemma {:induction false} FoldLastWins(entries: seq<Parsed>, i: nat)
    requires Fold(entries).Ok?
    requires i < |entries| && entries[i].Ok?
    requires forall j :: i < j < |entries| && entries[j].Ok? ==> entries[j].value.0 != entries[i].value.0
    ensures entries[i].value.0 != ProtoKey ==>
      entries[i].value.0 in Fold(entries).value && Fold(entries).value[entries[i].value.0] == entries[i].value.1
    decreases |entries|
  {
    var init := entries[..|entries| - 1];
    if i < |init| {
      assert init[i] == entries[i];
      forall j | i < j < |init| && init[j].Ok? ensures init[j].value.0 != init[i].value.0 {
        assert init[j] == entries[j];
      }
      FoldLastWins(init, i);
    }
  }

  /** Loading succeeds exactly when every line holds '='. */
  lemma LoadSucceeds(lines: seq<string>)
    ensures Load(lines).Ok? <==> forall i :: 0 <= i < |lines| ==> '=' in lines[i]
  {
    var entries := Entries(lines);
    FoldSucceeds(entries);
    assert forall i :: 0 <= i < |lines| ==> (entries[i].Ok? <==> '=' in lines[i]) by {
      forall i | 0 <= i < |lines| ensures entries[i].Ok? <==> '=' in lines[i] {
        assert entries[i] == Entry(lines[i]);
      }
    }
  }

  /** A failure names the first line without '='. */
  lemma LoadFailsAtFirstBadLine(lines: seq<string>)
    requires Load(lines).Err?
    ensures exists i :: (0 <= i < |lines| && '=' !in lines[i] && Load(lines).error == MissingValue(lines[i]) &&
      forall j :: 0 <= j < i ==> '=' in lines[j])
  {
    var entries := Entries(lines);
    FoldFailsAtFirst(entries);
    var i :| 0 <= i < |entries| && entries[i] == Err(Fold(entries).error) && forall j :: 0 <= j < i ==> entries[j].Ok?;
    assert forall j :: 0 <= j < i ==> '=' in lines[j] by {
      forall j | 0 <= j < i ensures '=' in lines[j] {
        assert entries[j] == Entry(lines[j]);
      }
    }
  }

  /** The key and value a line with '=' sets. */
  function KeyOf(line: string): string
    requires '=' in line
  {
    Entry(line).value.0
  }

  function ValueOf(line: string): string
    requires '=' in line
  {
    Entry(line).value.1
  }

  /** Every line of a successful load sets its key. */
  lemma LoadHasLineKey(lines: seq<string>, i: nat)
    requires Load(lines).Ok?
    requires i < |lines|
    ensures '=' in lines[i] && (KeyOf(lines[i]) in Load(lines).value <==> KeyOf(lines[i]) != ProtoKey)
  {
    var entries := Entries(lines);
    FoldSucceeds(entries);
    FoldKeys(entries);
    assert entries[i] == Entry(lines[i]);
  }

  /** Every key of a successful load comes from one of its lines. */
  lemma LoadKeyFromLine(lines: seq<string>, k: string)
    requires Load(lines).Ok?
    requires k in Load(lines).value
    ensures k != ProtoKey && exists i :: 0 <= i < |lines| && '=' in lines[i] && KeyOf(lines[i]) == k
  {
    var entries := Entries(lines);
    FoldKeys(entries);
    var i :| 0 <= i < |entries| && entries[i].Ok? && entries[i].value.0 == k;
    assert entries[i] == Entry(lines[i]);
  }

  /** A key holds the value of the last line that sets it: later lines overwrite earlier ones. */
  lemma LoadLastWins(lines: seq<string>, i: nat)
    requires Load(lines).Ok?
    requires i < |lines| && '=' in lines[i]
    requires forall j :: i < j < |lines| && '=' in lines[j] ==> KeyOf(lines[j]) != KeyOf(lines[i])
    ensures KeyOf(lines[i]) != ProtoKey ==>
      KeyOf(lines[i]) in Load(lines).value && Load(lines).value[KeyOf(lines[i])] == ValueOf(lines[i])
  {
    var entries := Entries(lines);
    forall j | i < j < |entries| && entries[j].Ok? ensures entries[j].value.0 != entries[i].value.0 {
      assert entries[j] == Entry(lines[j]);
    }
    FoldLastWins(entries, i);
    FoldKeys(entries);
  }

  /** A `.env` file holding only white space fails on its single empty line. */
  lemma BlankFileFails(text: string)
    requires AllSpace(text)
    ensures ParseEnv(text) == Err(MissingValue(""))
  {
    var data := Trim(text);
    assert text + [] == text;
    TrimStartAfterSpace(text, []);
    assert data == [];
    assert Split(data, '\n') == [""];
    assert Entries([""]) == [Err(MissingValue(""))];
    assert Entries([""])[..0] == [];
  }

  /** White space around the whole file makes no difference. */
  lemma SurroundingSpaceIgnored(a: string, text: string, b: string)
    requires AllSpace(a) && AllSpace(b)
    ensures ParseEnv(a + text + b) == ParseEnv(text)
  {
    TrimIgnoresSurroundingSpace(a, text, b);
  }
}
