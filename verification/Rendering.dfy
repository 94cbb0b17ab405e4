/** Environment and volume lines: maps rendered in an order the language leaves open, and volume
    strings taken apart at their colons. */
module Rendering {
  import opened Types
  import opened Sorting

  // ---------------------------------------------------------------- rendering a map

  /** `order` lists each key once. */
  ghost predicate IsOrder(order: seq<string>, keys: set<string>) {
    && (forall k :: k in keys <==> k in order)
    && (forall i, j :: 0 <= i < j < |order| ==> order[i] != order[j])
  }

  function Lines(order: seq<string>, m: map<string, string>, sep: string): seq<string>
    requires forall k :: k in order ==> k in m
  {
    seq(|order|, i requires 0 <= i < |order| => order[i] + sep + m[order[i]])
  }

  /** The lines are those of the map, one per key, in some order. */
  ghost predicate IsRendering(lines: seq<string>, m: map<string, string>, sep: string) {
    exists order :: IsOrder(order, m.Keys) && lines == Lines(order, m, sep)
  }

  /** The loop over a map that appends one line per key. */
  method Render(m: map<string, string>, sep: string) returns (lines: seq<string>)
    ensures IsRendering(lines, m, sep)
  {
    lines := [];
    ghost var order: seq<string> := [];
    var left := m.Keys;
    while left != {}
      invariant left <= m.Keys && IsOrder(order, m.Keys - left)
      invariant (forall k :: k in order ==> k in m) && lines == Lines(order, m, sep)
      decreases left
    {
      var k :| k in left;
      left := left - {k};
      lines := lines + [k + sep + m[k]];
      order := order + [k];
    }
    assert m.Keys - left == m.Keys;
  }

  lemma LinesConcat(a: seq<string>, b: seq<string>, m: map<string, string>, sep: string)
    requires forall k :: k in a + b ==> k in m
    ensures (forall k :: k in a ==> k in m) && (forall k :: k in b ==> k in m)
    ensures Lines(a + b, m, sep) == Lines(a, m, sep) + Lines(b, m, sep)
  {
  }

  lemma LinesSplitAt(o: seq<string>, j: nat, m: map<string, string>, sep: string)
    requires j < |o| && forall k :: k in o ==> k in m
    ensures var r := o[..j] + o[j + 1..];
            && (forall k :: k in r ==> k in m)
            && multiset(Lines(o, m, sep)) == multiset(Lines(r, m, sep)) + multiset{o[j] + sep + m[o[j]]}
  {
    var a, b := o[..j], o[j + 1..];
    assert o == a + ([o[j]] + b);
    LinesConcat(a, [o[j]] + b, m, sep);
    LinesConcat([o[j]], b, m, sep);
    assert forall k :: k in a + b ==> k in o;
    LinesConcat(a, b, m, sep);
  }

  lemma {:induction false} SameLines(o1: seq<string>, o2: seq<string>, keys: set<string>, m: map<string, string>,
                                     sep: string)
    requires IsOrder(o1, keys) && IsOrder(o2, keys) && keys <= m.Keys
    ensures multiset(Lines(o1, m, sep)) == multiset(Lines(o2, m, sep))
    decreases |o1|
  {
    if o1 != [] {
      var k := o1[0];
      assert k in keys;
      var j :| 0 <= j < |o2| && o2[j] == k;
      DropAt(o1, keys, 0);
      DropAt(o2, keys, j);
      SameLines(o1[..0] + o1[1..], o2[..j] + o2[j + 1..], keys - {k}, m, sep);
      LinesSplitAt(o1, 0, m, sep);
      LinesSplitAt(o2, j, m, sep);
    }
  }

  lemma DropAt(o: seq<string>, keys: set<string>, j: nat)
    requires IsOrder(o, keys) && j < |o|
    ensures IsOrder(o[..j] + o[j + 1..], keys - {o[j]})
  {
  }

  /** The lines of a map, whatever the order: one for each key. */
  lemma RenderingExact(lines: seq<string>, m: map<string, string>, sep: string, line: string)
    requires IsRendering(lines, m, sep)
    ensures line in lines <==> exists key :: key in m && line == key + sep + m[key]
  {
    var order :| IsOrder(order, m.Keys) && lines == Lines(order, m, sep);
    if line in lines {
      var i :| 0 <= i < |lines| && lines[i] == line;
      assert order[i] in m.Keys;
    }
    if key :| key in m && line == key + sep + m[key] {
      assert key in order;
      var i :| 0 <= i < |order| && order[i] == key;
      assert lines[i] == line;
    }
  }

  /** Two renderings of one map have the same lines up to order. */
  lemma RenderingsMatch(l1: seq<string>, l2: seq<string>, m: map<string, string>, sep: string)
    requires IsRendering(l1, m, sep) && IsRendering(l2, m, sep)
    ensures multiset(l1) == multiset(l2)
  {
    var o1 :| IsOrder(o1, m.Keys) && l1 == Lines(o1, m, sep);
    var o2 :| IsOrder(o2, m.Keys) && l2 == Lines(o2, m, sep);
    SameLines(o1, o2, m.Keys, m, sep);
  }

  /** The lines of the map, one per key, sorted. */
  ghost predicate IsSortedRendering(lines: seq<string>, m: map<string, string>, sep: string) {
    Sorted(lines) && exists unsorted :: IsRendering(unsorted, m, sep) && multiset(unsorted) == multiset(lines)
  }

  /** Sorted, the rendering of a map no longer depends on the order in which the map is visited. */
  lemma SortedRenderingUnique(l1: seq<string>, l2: seq<string>, m: map<string, string>, sep: string)
    requires IsSortedRendering(l1, m, sep) && IsSortedRendering(l2, m, sep)
    ensures l1 == l2
  {
    var u1 :| IsRendering(u1, m, sep) && multiset(u1) == multiset(l1);
    var u2 :| IsRendering(u2, m, sep) && multiset(u2) == multiset(l2);
    RenderingsMatch(u1, u2, m, sep);
    SortedUnique(l1, l2);
  }

  /** The loop that copies one map over another. */
  method CopyOver(base: map<string, string>, over: map<string, string>) returns (m: map<string, string>)
    ensures m == base + over
  {
    m := base;
    var left := over.Keys;
    while left != {}
      invariant left <= over.Keys
      invariant m == base + (map k | k in over && k !in left :: over[k])
      decreases left
    {
      var k :| k in left;
      left := left - {k};
      m := m[k := over[k]];
    }
    assert (map k | k in over && k !in left :: over[k]) == over;
  }

  // ---------------------------------------------------------------- volumes

  function FirstColon(s: string): (n: nat)
    ensures n <= |s| && (forall i :: 0 <= i < n ==> s[i] != ':') && (n < |s| ==> s[n] == ':')
  {
    if s == "" || s[0] == ':' then 0 else 1 + FirstColon(s[1..])
  }

  /** strings.Split at ":". */
  function Split(s: string): (parts: seq<string>)
    ensures |parts| >= 1
    decreases |s|
  {
    var n := FirstColon(s);
    if n == |s| then [s] else [s[..n]] + Split(s[n + 1..])
  }

  /** strings.Join with ":". */
  function Join(parts: seq<string>): string {
    if parts == [] then "" else if |parts| == 1 then parts[0] else parts[0] + ":" + Join(parts[1..])
  }

  function Key(vol: string): string {
    Split(vol)[0]
  }

  function Rest(vol: string): string {
    Join(Split(vol)[1..])
  }

  lemma {:induction false} JoinSplit(s: string)
    ensures Join(Split(s)) == s
    decreases |s|
  {
    var n := FirstColon(s);
    if n < |s| {
      var tail := s[n + 1..];
      JoinSplit(tail);
      assert Split(s) == [s[..n]] + Split(tail) && Split(s)[1..] == Split(tail);
      assert s == s[..n] + ":" + tail;
    }
  }

  /** The parts of a string, as a first part and the others. */
  lemma SplitParts(vol: string, n: nat, tail: string, first: string, rest: seq<string>)
    requires n == FirstColon(vol) < |vol| && tail == vol[n + 1..] && first == vol[..n] && rest == Split(tail)
    ensures Split(vol)[0] == first && Split(vol)[1..] == rest
  {
    assert Split(vol) == [first] + rest;
  }

  lemma SplitAtColon(vol: string, n: nat, first: string, tail: string)
    requires n == FirstColon(vol) < |vol| && first == vol[..n] && tail == vol[n + 1..]
    ensures Key(vol) == first && Rest(vol) == tail
  {
    var rest := Split(tail);
    SplitParts(vol, n, tail, first, rest);
    assert Join(rest) == tail by { JoinSplit(tail); }
  }

  lemma Glue(s: string, n: nat)
    requires n < |s| && s[n] == ':'
    ensures s[..n] + ":" + s[n + 1..] == s
  {
  }

  /** The key is the part before the first colon; with a colon, key and rest give the volume back. */
  lemma VolumeParts(vol: string)
    ensures Key(vol) == vol[..FirstColon(vol)]
    ensures FirstColon(vol) < |vol| ==> Key(vol) + ":" + Rest(vol) == vol
    ensures FirstColon(vol) == |vol| ==> Rest(vol) == ""
  {
    if FirstColon(vol) < |vol| {
      var n := FirstColon(vol);
      SplitAtColon(vol, n, vol[..n], vol[n + 1..]);
      Glue(vol, n);
    } else {
      assert vol[..|vol|] == vol;
    }
  }

  /** The map filled by a list of volumes, later entries replacing earlier ones. */
  function VolumeMap(base: map<string, string>, vols: seq<string>): map<string, string> {
    if vols == [] then base
    else VolumeMap(base, vols[..|vols| - 1])[Key(vols[|vols| - 1]) := Rest(vols[|vols| - 1])]
  }

  method AddVolumes(base: map<string, string>, vols: seq<string>) returns (m: map<string, string>)
    ensures m == VolumeMap(base, vols)
  {
    m := base;
    var i := 0;
    while i < |vols|
      invariant 0 <= i <= |vols| && m == VolumeMap(base, vols[..i])
    {
      var v := Split(vols[i]);
      m := m[v[0] := Join(v[1..])];
      assert vols[..i + 1][..i] == vols[..i];
      i := i + 1;
    }
    assert vols[..|vols|] == vols;
  }

  /** The last volume of a list with the given key. */
  function LastWith(vols: seq<string>, key: string): (r: Option<string>)
    ensures r.Some? ==> r.value in vols && Key(r.value) == key
    ensures r.None? ==> forall v :: v in vols ==> Key(v) != key
  {
    if vols == [] then None
    else if Key(vols[|vols| - 1]) == key then Some(vols[|vols| - 1])
    else LastWith(vols[..|vols| - 1], key)
  }

  lemma {:induction false} VolumeMapExact(base: map<string, string>, vols: seq<string>, key: string)
    ensures key in VolumeMap(base, vols) <==> key in base || LastWith(vols, key).Some?
    ensures key in VolumeMap(base, vols) ==>
              VolumeMap(base, vols)[key] == if LastWith(vols, key).Some?
                then Rest(LastWith(vols, key).value) else base[key]
  {
    if vols != [] {
      VolumeMapExact(base, vols[..|vols| - 1], key);
    }
  }

  function MergedVolumes(taskVolumes: seq<string>, actionVolumes: seq<string>): map<string, string> {
    VolumeMap(VolumeMap(map[], taskVolumes), actionVolumes)
  }

  /** The volume that stands for a key: the action's last one, or else the task's last one. */
  function Winner(taskVolumes: seq<string>, actionVolumes: seq<string>, key: string): Option<string> {
    if LastWith(actionVolumes, key).Some? then LastWith(actionVolumes, key) else LastWith(taskVolumes, key)
  }

  /** What a volume is emitted as: itself, or with a colon added if it has none. */
  function Emitted(vol: string): string {
    if ':' in vol then vol else vol + ":"
  }

  lemma EmittedParts(vol: string)
    ensures Key(vol) + ":" + Rest(vol) == Emitted(vol)
  {
    VolumeParts(vol);
    if FirstColon(vol) == |vol| {
      assert Key(vol) == vol && vol + ":" + "" == vol + ":";
    }
  }

  /** The volume wins its key: it is the action's last one with that key, or else the task's last one. */
  predicate Wins(taskVolumes: seq<string>, actionVolumes: seq<string>, vol: string) {
    (vol in taskVolumes || vol in actionVolumes) && Winner(taskVolumes, actionVolumes, Key(vol)) == Some(vol)
  }

  /** The emitted lines are exactly the volumes that win their key; so if every volume has a colon, each
      line is an input volume. */
  lemma MergedVolumesExact(taskVolumes: seq<string>, actionVolumes: seq<string>, lines: seq<string>, line: string)
    requires IsRendering(lines, MergedVolumes(taskVolumes, actionVolumes), ":")
    ensures line in lines <==> exists vol :: Wins(taskVolumes, actionVolumes, vol) && line == Emitted(vol)
    ensures (forall v :: v in taskVolumes || v in actionVolumes ==> ':' in v) ==>
              (line in lines <==> Wins(taskVolumes, actionVolumes, line))
  {
    var m := MergedVolumes(taskVolumes, actionVolumes);
    var order :| IsOrder(order, m.Keys) && lines == Lines(order, m, ":");
    forall key
      ensures key in m <==> Winner(taskVolumes, actionVolumes, key).Some?
      ensures key in m ==> key + ":" + m[key] == Emitted(Winner(taskVolumes, actionVolumes, key).value)
    {
      MergedAt(taskVolumes, actionVolumes, key);
    }
    if line in lines {
      var i :| 0 <= i < |lines| && lines[i] == line;
      assert order[i] in m.Keys;
      var vol := Winner(taskVolumes, actionVolumes, order[i]).value;
      assert Wins(taskVolumes, actionVolumes, vol) && line == Emitted(vol);
    }
    if vol :| Wins(taskVolumes, actionVolumes, vol) && line == Emitted(vol) {
      assert Key(vol) in order;
      var i :| 0 <= i < |order| && order[i] == Key(vol);
      assert lines[i] == line;
    }
  }

  lemma MergedAt(taskVolumes: seq<string>, actionVolumes: seq<string>, key: string)
    ensures var m, w := MergedVolumes(taskVolumes, actionVolumes), Winner(taskVolumes, actionVolumes, key);
            && (key in m <==> w.Some?)
            && (key in m ==> key + ":" + m[key] == Emitted(w.value))
  {
    VolumeMapExact(map[], taskVolumes, key);
    VolumeMapExact(VolumeMap(map[], taskVolumes), actionVolumes, key);
    var w := Winner(taskVolumes, actionVolumes, key);
    if w.Some? {
      EmittedParts(w.value);
    }
  }
}
