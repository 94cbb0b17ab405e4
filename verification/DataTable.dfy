/** The versioned ephemeral data of workflows (db/workflow.go:192-302, 651-665). */
module DataTable {
  import opened Types

  /** A row of workflow_data; `data` is `None` for SQL NULL. */
  datatype Entry = Entry(wf: string, version: int, metadata: string, data: Option<string>)

  /** SELECT COUNT(*) for one workflow. */
  function Count(rows: seq<Entry>, wf: string): nat {
    if rows == [] then 0
    else Count(rows[..|rows| - 1], wf) + if rows[|rows| - 1].wf == wf then 1 else 0
  }

  /** UPDATE ... SET data = NULL for one version. */
  function Clear(rows: seq<Entry>, wf: string, version: int): (r: seq<Entry>)
    ensures |r| == |rows|
  {
    seq(|rows|, i requires 0 <= i < |rows| =>
      if rows[i].wf == wf && rows[i].version == version then rows[i].(data := None) else rows[i])
  }

  /** InsertIntoWfDataTable. */
  function Insert(rows: seq<Entry>, maxVersions: int, wf: string, metadata: string, data: string): seq<Entry> {
    var version := Count(rows, wf) + 1;
    var rows' := rows + [Entry(wf, version, metadata, Some(data))];
    if version > maxVersions then Clear(rows', wf, version - maxVersions) else rows'
  }

  /** A write request. */
  datatype Write = Write(wf: string, metadata: string, data: string)

  function InsertAll(writes: seq<Write>, maxVersions: int): seq<Entry> {
    if writes == [] then []
    else
      var w := writes[|writes| - 1];
      Insert(InsertAll(writes[..|writes| - 1], maxVersions), maxVersions, w.wf, w.metadata, w.data)
  }

  function WriteCount(writes: seq<Write>, wf: string): nat {
    if writes == [] then 0
    else WriteCount(writes[..|writes| - 1], wf) + if writes[|writes| - 1].wf == wf then 1 else 0
  }

  /** Which row a write leaves behind, after all the writes: its version counts the writes to the same
      workflow; its metadata stays; its data stays iff it is among the last `maxVersions` versions, or
      `maxVersions` is negative. */
  function Expected(writes: seq<Write>, maxVersions: int, i: nat): Entry
    requires i < |writes|
  {
    var w := writes[i];
    var version := WriteCount(writes[..i + 1], w.wf);
    var latest := WriteCount(writes, w.wf);
    Entry(w.wf, version, w.metadata,
          if maxVersions < 0 || version > latest - maxVersions then Some(w.data) else None)
  }

  lemma {:induction false} CountMonotone(writes: seq<Write>, wf: string, n: nat)
    requires n <= |writes|
    ensures WriteCount(writes[..n], wf) <= WriteCount(writes, wf)
  {
    if n == |writes| {
      assert writes[..n] == writes;
    } else {
      assert writes[..|writes| - 1][..n] == writes[..n];
      CountMonotone(writes[..|writes| - 1], wf, n);
    }
  }

  /** One write more: what the earlier rows and the new one become. */
  lemma InsertRow(writes: seq<Write>, maxVersions: int, rows: seq<Entry>, i: nat)
    requires writes != [] && i < |writes| && |rows| == |writes| - 1
    requires var front := writes[..|writes| - 1];
             && Count(rows, writes[|writes| - 1].wf) == WriteCount(front, writes[|writes| - 1].wf)
             && (i < |rows| ==> rows[i] == Expected(front, maxVersions, i))
    ensures var w := writes[|writes| - 1];
            var rows' := Insert(rows, maxVersions, w.wf, w.metadata, w.data);
            |rows'| == |writes| && rows'[i] == Expected(writes, maxVersions, i)
  {
    var n := |writes| - 1;
    var front := writes[..n];
    assert writes[..n + 1] == writes;
    if i < n {
      assert front[..i + 1] == writes[..i + 1];
      CountMonotone(front, front[i].wf, i + 1);
    }
  }

  lemma InsertCount(rows: seq<Entry>, maxVersions: int, w: Write, wf: string)
    ensures Count(Insert(rows, maxVersions, w.wf, w.metadata, w.data), wf) == Count(rows, wf) + if w.wf == wf
            then 1 else 0
  {
    var rows1 := rows + [Entry(w.wf, Count(rows, w.wf) + 1, w.metadata, Some(w.data))];
    assert rows1[..|rows|] == rows;
    CountDependsOnOwners(Insert(rows, maxVersions, w.wf, w.metadata, w.data), rows1, wf);
  }

  /** The window, over every sequence of writes to any workflows: row `i` is what write `i` is
      expected to leave behind. */
  lemma {:induction false} Window(writes: seq<Write>, maxVersions: int)
    ensures |InsertAll(writes, maxVersions)| == |writes|
    ensures forall i :: 0 <= i < |writes| ==> InsertAll(writes, maxVersions)[i] == Expected(writes, maxVersions, i)
    ensures forall wf :: Count(InsertAll(writes, maxVersions), wf) == WriteCount(writes, wf)
  {
    if writes != [] {
      var front, w := writes[..|writes| - 1], writes[|writes| - 1];
      var rows := InsertAll(front, maxVersions);
      Window(front, maxVersions);
      var rows' := InsertAll(writes, maxVersions);
      InsertRow(writes, maxVersions, rows, |writes| - 1);
      forall i | 0 <= i < |writes|
        ensures rows'[i] == Expected(writes, maxVersions, i)
      {
        InsertRow(writes, maxVersions, rows, i);
      }
      forall wf
        ensures Count(rows', wf) == WriteCount(writes, wf)
      {
        InsertCount(rows, maxVersions, w, wf);
      }
    }
  }

  lemma {:induction false} CountDependsOnOwners(rows: seq<Entry>, rows': seq<Entry>, wf: string)
    requires |rows| == |rows'| && forall i :: 0 <= i < |rows| ==> rows[i].wf == rows'[i].wf
    ensures Count(rows, wf) == Count(rows', wf)
  {
    if rows != [] {
      CountDependsOnOwners(rows[..|rows| - 1], rows'[..|rows| - 1], wf);
    }
  }

  /** Versions of one workflow are 1..n, once each. */
  lemma VersionsExact(writes: seq<Write>, maxVersions: int, wf: string, v: int)
    ensures (exists i :: IsVersion(InsertAll(writes, maxVersions), wf, v, i)) <==> 1 <= v <= WriteCount(writes, wf)
    ensures forall i, i' ::
              IsVersion(InsertAll(writes, maxVersions), wf, v, i)
                && IsVersion(InsertAll(writes, maxVersions), wf, v, i')
              ==> i == i'
  {
    var rows := InsertAll(writes, maxVersions);
    Window(writes, maxVersions);
    if 1 <= v <= WriteCount(writes, wf) {
      var i := NthWrite(writes, wf, v);
      assert IsVersion(rows, wf, v, i);
    }
    forall i | IsVersion(rows, wf, v, i)
      ensures 1 <= v <= WriteCount(writes, wf)
    {
      assert writes[..i + 1][..i] == writes[..i];
      CountMonotone(writes, wf, i + 1);
    }
    forall i, i' | IsVersion(rows, wf, v, i) && IsVersion(rows, wf, v, i')
      ensures i == i'
    {
      if i < i' {
        CountStrict(writes, wf, i, i');
      } else if i' < i {
        CountStrict(writes, wf, i', i);
      }
    }
  }

  predicate IsVersion(rows: seq<Entry>, wf: string, v: int, i: int) {
    0 <= i < |rows| && rows[i].wf == wf && rows[i].version == v
  }

  lemma CountStrict(writes: seq<Write>, wf: string, i: nat, i': nat)
    requires i < i' < |writes| && writes[i'].wf == wf
    ensures WriteCount(writes[..i + 1], wf) < WriteCount(writes[..i' + 1], wf)
  {
    assert writes[..i' + 1][..i'] == writes[..i'];
    assert writes[..i'][..i + 1] == writes[..i + 1];
    CountMonotone(writes[..i'], wf, i + 1);
  }

  lemma {:induction false} NthWrite(writes: seq<Write>, wf: string, v: int) returns (i: nat)
    requires 1 <= v <= WriteCount(writes, wf)
    ensures i < |writes| && writes[i].wf == wf && WriteCount(writes[..i + 1], wf) == v
  {
    var n := |writes| - 1;
    if WriteCount(writes[..n], wf) >= v {
      i := NthWrite(writes[..n], wf, v);
      assert writes[..n][..i + 1] == writes[..i + 1];
    } else {
      i := n;
      assert writes[..n + 1] == writes;
    }
  }

  /** The table and its statements. */
  class Table {
    const maxVersions: int
    var rows: seq<Entry>

    constructor (maxVersions: int)
      ensures this.maxVersions == maxVersions && rows == []
    {
      this.maxVersions := maxVersions;
      rows := [];
    }

    /** getLatestVersionWfData. */
    method LatestVersion(wf: string) returns (version: nat)
      ensures version == Count(rows, wf)
    {
      version := 0;
      var i := 0;
      while i < |rows|
        invariant 0 <= i <= |rows| && version == Count(rows[..i], wf)
      {
        assert rows[..i + 1][..i] == rows[..i];
        if rows[i].wf == wf {
          version := version + 1;
        }
        i := i + 1;
      }
      assert rows[..|rows|] == rows;
    }

    /** InsertIntoWfDataTable. */
    method InsertIntoWfDataTable(wf: string, metadata: string, data: string)
      modifies this`rows
      ensures rows == Insert(old(rows), maxVersions, wf, metadata, data)
    {
      var version := LatestVersion(wf);
      version := version + 1;
      rows := rows + [Entry(wf, version, metadata, Some(data))];
      if version > maxVersions {
        rows := Clear(rows, wf, version - maxVersions);
      }
    }

    /** The row selected by workflow and version, where version 0 means the latest. */
    method Select(wf: string, version: int) returns (row: Option<Entry>)
      ensures row == Find(rows, wf, version)
    {
      var wanted := version;
      if version == 0 {
        wanted := LatestVersion(wf);
      }
      var i := 0;
      while i < |rows|
        invariant 0 <= i <= |rows| && FindFrom(rows, wf, wanted, i) == FindFrom(rows, wf, wanted, 0)
      {
        if rows[i].wf == wf && rows[i].version == wanted {
          return Some(rows[i]);
        }
        i := i + 1;
      }
      row := None;
    }

    /** GetfromWfDataTable: NULL and a missing row read as empty. */
    method GetFromWfDataTable(wf: string, version: int) returns (data: string)
      ensures data == ReadData(rows, wf, version)
    {
      var row := Select(wf, version);
      data := if row.Some? && row.value.data.Some? then row.value.data.value else "";
    }

    /** GetWorkflowMetadata: a missing row reads as empty. */
    method GetWorkflowMetadata(wf: string, version: int) returns (metadata: string)
      ensures metadata == ReadMetadata(rows, wf, version)
    {
      var row := Select(wf, version);
      metadata := if row.Some? then row.value.metadata else "";
    }
  }

  function FindFrom(rows: seq<Entry>, wf: string, version: int, i: nat): Option<Entry>
    requires i <= |rows|
    decreases |rows| - i
  {
    if i == |rows| then None
    else if rows[i].wf == wf && rows[i].version == version then Some(rows[i])
    else FindFrom(rows, wf, version, i + 1)
  }

  function Find(rows: seq<Entry>, wf: string, version: int): Option<Entry> {
    FindFrom(rows, wf, if version == 0 then Count(rows, wf) else version, 0)
  }

  function ReadData(rows: seq<Entry>, wf: string, version: int): string {
    var row := Find(rows, wf, version);
    if row.Some? && row.value.data.Some? then row.value.data.value else ""
  }

  function ReadMetadata(rows: seq<Entry>, wf: string, version: int): string {
    var row := Find(rows, wf, version);
    if row.Some? then row.value.metadata else ""
  }

  lemma {:induction false} FindFinds(rows: seq<Entry>, wf: string, v: int, i: nat, start: nat)
    requires start <= i && IsVersion(rows, wf, v, i)
    requires forall j :: start <= j < i ==> !IsVersion(rows, wf, v, j)
    ensures FindFrom(rows, wf, v, start) == Some(rows[i])
    decreases i - start
  {
    if start < i {
      assert !IsVersion(rows, wf, v, start);
      FindFinds(rows, wf, v, i, start + 1);
    }
  }

  lemma {:induction false} FindMisses(rows: seq<Entry>, wf: string, v: int, start: nat)
    requires start <= |rows| && forall j :: start <= j < |rows| ==> !IsVersion(rows, wf, v, j)
    ensures FindFrom(rows, wf, v, start) == None
    decreases |rows| - start
  {
    if start < |rows| {
      assert !IsVersion(rows, wf, v, start);
      FindMisses(rows, wf, v, start + 1);
    }
  }

  /** Reading back write `i`: its data as written while it is in the window, nothing afterwards; its
      metadata always. */
  lemma ReadBack(writes: seq<Write>, maxVersions: int, i: nat)
    requires i < |writes|
    ensures var w, rows := writes[i], InsertAll(writes, maxVersions);
            var version, latest := WriteCount(writes[..i + 1], w.wf), WriteCount(writes, w.wf);
            && 1 <= version <= latest
            && ReadData(rows, w.wf, version) ==
                (if maxVersions < 0 || version > latest - maxVersions then w.data else "")
            && ReadMetadata(rows, w.wf, version) == w.metadata
  {
    var w := writes[i];
    var rows := InsertAll(writes, maxVersions);
    Window(writes, maxVersions);
    assert rows[i] == Expected(writes, maxVersions, i);
    var v := WriteCount(writes[..i + 1], w.wf);
    assert IsVersion(rows, w.wf, v, i);
    VersionsExact(writes, maxVersions, w.wf, v);
    FindFinds(rows, w.wf, v, i, 0);
  }

  /** A version that was never written, and any version of a workflow without data, reads as empty. */
  lemma ReadMissing(writes: seq<Write>, maxVersions: int, wf: string, version: int)
    requires !(1 <= version <= WriteCount(writes, wf)) && (version == 0 ==> WriteCount(writes, wf) == 0)
    ensures ReadData(InsertAll(writes, maxVersions), wf, version) == ""
    ensures ReadMetadata(InsertAll(writes, maxVersions), wf, version) == ""
  {
    var rows := InsertAll(writes, maxVersions);
    Window(writes, maxVersions);
    VersionsExact(writes, maxVersions, wf, version);
    FindMisses(rows, wf, version, 0);
  }

  /** Reading version 0 is reading the latest version. */
  lemma ReadLatest(writes: seq<Write>, maxVersions: int, wf: string)
    ensures Find(InsertAll(writes, maxVersions), wf, 0) ==
              Find(InsertAll(writes, maxVersions), wf, WriteCount(writes, wf))
  {
    Window(writes, maxVersions);
  }
}
