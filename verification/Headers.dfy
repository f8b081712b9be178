/**
 Header maps: lower-case names, each with its list of values in order. Which order different names
 are yielded in is not modelled; loops over a map take the names in any order.
 */
module Headers {
  import opened Bytes

  type Name = Bytes
  type Value = Bytes
  type HeaderMap = map<Name, seq<Value>>

  /** The bytes of `content-length`. */
  const CONTENT_LENGTH: Name := [99, 111, 110, 116, 101, 110, 116, 45, 108, 101, 110, 103, 116, 104]

  /** The bytes of `host`. */
  const HOST: Name := [104, 111, 115, 116]

  function Get(h: HeaderMap, name: Name): seq<Value> {
    if name in h then h[name] else []
  }

  function Insert(h: HeaderMap, name: Name, value: Value): HeaderMap {
    h[name := [value]]
  }

  function Append(h: HeaderMap, name: Name, value: Value): HeaderMap {
    h[name := Get(h, name) + [value]]
  }

  function Remove(h: HeaderMap, name: Name): HeaderMap {
    h - {name}
  }

  /** Every configured name holds only its last configured value. */
  function Inserted(h: HeaderMap, configured: HeaderMap): HeaderMap {
    map name | name in h.Keys + configured.Keys && (name in h || configured[name] != [])
      :: if Get(configured, name) != [] then [configured[name][|configured[name]| - 1]] else h[name]
  }

  /** Every name holds its old values followed by the configured ones. */
  function Appended(h: HeaderMap, configured: HeaderMap): HeaderMap {
    map name | name in h.Keys + configured.Keys && (name in h || configured[name] != [])
      :: Get(h, name) + Get(configured, name)
  }

  lemma GetInserted(h: HeaderMap, configured: HeaderMap, name: Name)
    ensures Get(Inserted(h, configured), name) ==
            var values := Get(configured, name);
            if values != [] then [values[|values| - 1]] else Get(h, name)
  {
  }

  lemma GetAppended(h: HeaderMap, configured: HeaderMap, name: Name)
    ensures Get(Appended(h, configured), name) == Get(h, name) + Get(configured, name)
  {
  }

  lemma InsertedStep(h: HeaderMap, configured: HeaderMap, name: Name)
    requires name in configured
    ensures var rest := Inserted(h, configured - {name});
            var values := configured[name];
            Inserted(h, configured) == if values == [] then rest else rest[name := [values[|values| - 1]]]
  {
  }

  lemma AppendedStep(h: HeaderMap, configured: HeaderMap, name: Name)
    requires name in configured
    ensures var rest := Appended(h, configured - {name});
            var values := configured[name];
            Appended(h, configured) == if values == [] then rest else rest[name := Get(rest, name) + values]
  {
    GetAppended(h, configured - {name}, name);
    assert Get(h, name) + [] == Get(h, name);
  }

  lemma InsertedTwice(h: HeaderMap, configured: HeaderMap)
    ensures Inserted(Inserted(h, configured), configured) == Inserted(h, configured)
  {
  }

  lemma RemovedButConfigured(h: HeaderMap, configured: HeaderMap, name: Name)
    requires Get(configured, name) != []
    ensures Inserted(Remove(h, name), configured) == Inserted(h, configured)
  {
  }

  lemma RemovedForGood(h: HeaderMap, configured: HeaderMap, name: Name)
    requires Get(configured, name) == []
    ensures Inserted(Remove(h, name), configured) == Remove(Inserted(h, configured), name)
  {
  }

  /** Removing a name before the replace loop only matters if that name is not configured. */
  lemma InsertedAfterRemove(h: HeaderMap, configured: HeaderMap, name: Name)
    ensures Inserted(Remove(h, name), configured) ==
            if Get(configured, name) != [] then Inserted(h, configured) else Remove(Inserted(h, configured), name)
  {
    if Get(configured, name) != [] {
      RemovedButConfigured(h, configured, name);
    } else {
      RemovedForGood(h, configured, name);
    }
  }

  /** The replace loop between two optional removals of one name. */
  function Fixed(h: HeaderMap, configured: HeaderMap, name: Name, before: bool, after: bool): HeaderMap {
    var fixed := Inserted(if before then Remove(h, name) else h, configured);
    if after then Remove(fixed, name) else fixed
  }

  /** Under each name: nothing if removed last, else the replacement, else nothing if removed first, else the old values. */
  lemma GetFixed(h: HeaderMap, configured: HeaderMap, removed: Name, before: bool, after: bool, name: Name)
    ensures Get(Fixed(h, configured, removed, before, after), name) ==
            var values := Get(configured, name);
            if after && name == removed then []
            else if values != [] then [values[|values| - 1]]
            else if before && name == removed then []
            else Get(h, name)
  {
    GetInserted(if before then Remove(h, removed) else h, configured, name);
  }

  lemma FixedTwice(h: HeaderMap, configured: HeaderMap, name: Name, before: bool, after: bool)
    ensures Fixed(Fixed(h, configured, name, before, after), configured, name, before, after) ==
            Fixed(h, configured, name, before, after)
  {
    var start := if before then Remove(h, name) else h;
    var fixed := Inserted(start, configured);
    InsertedTwice(start, configured);
    if after {
      InsertedAfterRemove(fixed, configured, name);
      assert Remove(Remove(fixed, name), name) == Remove(fixed, name);
      assert Remove(Inserted(Remove(fixed, name), configured), name) == Remove(fixed, name);
    } else if before {
      InsertedAfterRemove(fixed, configured, name);
      InsertedAfterRemove(h, configured, name);
      assert Get(configured, name) == [] ==> Remove(fixed, name) == fixed;
    }
  }

  lemma NothingConfigured(h: HeaderMap)
    ensures Inserted(h, map[]) == h
    ensures Appended(h, map[]) == h
  {
    forall name | name in h ensures Get(h, name) + Get(map[], name) == h[name] {
    }
  }

  method InsertEach(h: HeaderMap, name: Name, values: seq<Value>) returns (r: HeaderMap)
    ensures r == if values == [] then h else h[name := [values[|values| - 1]]]
  {
    r := h;
    for i := 0 to |values|
      invariant r == if i == 0 then h else h[name := [values[i - 1]]]
    {
      r := Insert(r, name, values[i]);
    }
  }

  method AppendEach(h: HeaderMap, name: Name, values: seq<Value>) returns (r: HeaderMap)
    ensures r == if values == [] then h else h[name := Get(h, name) + values]
  {
    r := h;
    for i := 0 to |values|
      invariant r == if i == 0 then h else h[name := Get(h, name) + values[..i]]
    {
      assert Get(r, name) == Get(h, name) + values[..i];
      assert Get(h, name) + values[..i + 1] == Get(r, name) + [values[i]];
      r := Append(r, name, values[i]);
    }
    assert values[..|values|] == values;
  }

  /** What a loop over a map has done after one more key. */
  lemma OneMoreDone<K, V>(m: map<K, V>, todo: set<K>, key: K)
    requires key in todo && todo <= m.Keys
    ensures var done := m - (todo - {key});
            key in done && done[key] == m[key] && done - {key} == m - todo
  {
  }

  /** The replace loop: `insert` for every name and value of `configured`. */
  method InsertAll(h: HeaderMap, configured: HeaderMap) returns (r: HeaderMap)
    ensures r == Inserted(h, configured)
  {
    r := h;
    NothingConfigured(h);
    var todo := configured.Keys;
    while todo != {}
      invariant todo <= configured.Keys
      invariant r == Inserted(h, configured - todo)
    {
      var name :| name in todo;
      OneMoreDone(configured, todo, name);
      InsertedStep(h, configured - (todo - {name}), name);
      r := InsertEach(r, name, configured[name]);
      todo := todo - {name};
    }
    assert configured - todo == configured;
  }

  /** The patch loop: `append` for every name and value of `configured`. */
  method AppendAll(h: HeaderMap, configured: HeaderMap) returns (r: HeaderMap)
    ensures r == Appended(h, configured)
  {
    r := h;
    NothingConfigured(h);
    var todo := configured.Keys;
    while todo != {}
      invariant todo <= configured.Keys
      invariant r == Appended(h, configured - todo)
    {
      var name :| name in todo;
      OneMoreDone(configured, todo, name);
      AppendedStep(h, configured - (todo - {name}), name);
      r := AppendEach(r, name, configured[name]);
      todo := todo - {name};
    }
    assert configured - todo == configured;
  }
}
