/**
 * The Rekordbox watcher of lib.rs: the state holding at most one watcher
 * task, and the polling loop that reloads the library when the database
 * file's modification time moves forward. The times the loop reads are
 * inputs; a poll that could not read the file's metadata is `None`.
 */
module RekordboxWatch {
  import opened Wrappers
  import Rekordbox

  /** `RekordboxWatcher`: the watched path and the task polling it, numbered in spawn order. */
  datatype Watcher = Watcher(path: string, task: nat)

  /**
   * `Path::components` on Unix: the root when the path starts with `/`, a
   * `.` only when a relative path starts with `.` followed by `/` or nothing,
   * then the normal components (`..` included). Repeated `/`, a trailing `/`
   * and every other `.` leave no component.
   */
  function PathComponents(path: string): (cs: seq<string>)
    ensures |path| > 0 && path[0] == '/' ==> |cs| > 0 && cs[0] == "/"
    ensures LeadingCurDir(path) ==> |cs| > 0 && cs[0] == "."
  {
    (if |path| > 0 && path[0] == '/' then ["/"] else [])
    + (if LeadingCurDir(path) then ["."] else [])
    + Rekordbox.Components(Rekordbox.SplitSlash(path))
  }

  /** The leading `.` of a relative path that `Path::components` reports as the current directory. */
  predicate LeadingCurDir(path: string) {
    |path| > 0 && path[0] == '.' && (|path| == 1 || path[1] == '/')
  }

  /** `PathBuf` equality: two paths are equal when their components are. */
  predicate SamePath(a: string, b: string) {
    PathComponents(a) == PathComponents(b)
  }

  /** The watcher after `configure(path)` when `spawned` tasks have been started so far. */
  function Configured(watcher: Option<Watcher>, spawned: nat, path: string): (Option<Watcher>, nat) {
    if watcher.Some? && SamePath(watcher.value.path, path) then (watcher, spawned)
    else (Some(Watcher(path, spawned)), spawned + 1)
  }

  /**
   * After `configure(path)` a path equal to `path` is watched; a task is
   * started exactly when no watcher was watching such a path, and
   * configuring again changes nothing.
   */
  lemma ConfiguredWatches(watcher: Option<Watcher>, spawned: nat, path: string)
    ensures var (w, s) := Configured(watcher, spawned, path);
      && w.Some? && SamePath(w.value.path, path)
      && (s == spawned + 1 <==> watcher.None? || !SamePath(watcher.value.path, path))
      && (s == spawned ==> w == watcher)
      && (s != spawned ==> w.value == Watcher(path, spawned))
      && Configured(w, s, path) == (w, s)
  {
  }

  /** A `/` splits a path into the parts of what precedes it followed by the parts of what follows it. */
  lemma {:induction false} SplitSlashJoin(a: string, b: string)
    ensures Rekordbox.SplitSlash(a + "/" + b) == Rekordbox.SplitSlash(a) + Rekordbox.SplitSlash(b)
  {
    if a == [] {
      assert a + "/" + b == "/" + b;
      assert Rekordbox.SplitSlash("/" + b) == [[]] + Rekordbox.SplitSlash(b);
    } else {
      assert (a + "/" + b)[1..] == a[1..] + "/" + b;
      SplitSlashJoin(a[1..], b);
    }
  }

  /** Text without a separator is a single part. */
  lemma {:induction false} SplitSlashOfPart(part: string)
    requires '/' !in part
    ensures Rekordbox.SplitSlash(part) == [part]
  {
    if part != [] {
      SplitSlashOfPart(part[1..]);
      assert [part[0]] + part[1..] == part;
    }
  }

  lemma {:induction false} ComponentsAppend(x: seq<string>, y: seq<string>)
    ensures Rekordbox.Components(x + y) == Rekordbox.Components(x) + Rekordbox.Components(y)
  {
    if x != [] {
      assert (x + y)[1..] == x[1..] + y;
      ComponentsAppend(x[1..], y);
    } else {
      assert x + y == y;
    }
  }

  /** Two paths around one separator or around `sep` have the same normal components. */
  lemma SameNormalComponents(p: string, q: string, sep: string)
    requires Rekordbox.Components(Rekordbox.SplitSlash(sep)) == []
    ensures Rekordbox.Components(Rekordbox.SplitSlash(p + "/" + sep + "/" + q))
         == Rekordbox.Components(Rekordbox.SplitSlash(p + "/" + q))
  {
    assert p + "/" + sep + "/" + q == p + "/" + (sep + "/" + q);
    SplitSlashJoin(p, sep + "/" + q);
    SplitSlashJoin(sep, q);
    SplitSlashJoin(p, q);
    var sp, ss, sq := Rekordbox.SplitSlash(p), Rekordbox.SplitSlash(sep), Rekordbox.SplitSlash(q);
    assert sp + (ss + sq) == sp + ss + sq;
    ComponentsAppend(sp + ss, sq);
    ComponentsAppend(sp, ss);
    ComponentsAppend(sp, sq);
  }

  /** A repeated `/` does not change the path. */
  lemma {:induction false} RepeatedSlashSamePath(p: string, q: string)
    ensures SamePath(p + "/" + q, p + "//" + q)
  {
    assert Rekordbox.SplitSlash("") == [[]];
    assert p + "//" + q == p + "/" + "" + "/" + q;
    SameNormalComponents(p, q, "");
    var a, b := p + "/" + q, p + "//" + q;
    if p == [] {
      assert a[0] == '/' && b[0] == '/';
    } else {
      assert a[0] == p[0] && b[0] == p[0];
      assert |p| == 1 ==> a[1] == '/' && b[1] == '/';
      assert |p| > 1 ==> a[1] == p[1] && b[1] == p[1];
    }
  }

  /** A `.` between two separators does not change the path. */
  lemma {:induction false} InnerCurDirSamePath(p: string, q: string)
    ensures SamePath(p + "/" + q, p + "/./" + q)
  {
    SplitSlashOfPart(".");
    assert p + "/./" + q == p + "/" + "." + "/" + q;
    SameNormalComponents(p, q, ".");
    var a, b := p + "/" + q, p + "/./" + q;
    if p == [] {
      assert a[0] == '/' && b[0] == '/';
    } else {
      assert a[0] == p[0] && b[0] == p[0];
      assert |p| == 1 ==> a[1] == '/' && b[1] == '/';
      assert |p| > 1 ==> a[1] == p[1] && b[1] == p[1];
    }
  }

  /** A trailing `/` does not change a non-empty path. */
  lemma {:induction false} TrailingSlashSamePath(p: string)
    requires p != []
    ensures SamePath(p, p + "/")
  {
    assert p + "/" == p + "/" + "";
    SplitSlashJoin(p, "");
    assert Rekordbox.SplitSlash("") == [[]];
    ComponentsAppend(Rekordbox.SplitSlash(p), [[]]);
    var b := p + "/";
    assert b[0] == p[0];
    assert |p| == 1 ==> b[1] == '/';
    assert |p| > 1 ==> b[1] == p[1];
  }

  /** The root and a leading `.` are components of their own. */
  lemma RootAndCurDirDiffer()
    ensures !SamePath("/a", "a")
    ensures !SamePath("./a", "a")
    ensures !SamePath("/a", "./a")
  {
    SplitSlashOfPart("a");
    assert PathComponents("a") == ["a"];
  }

  /** `configure` with a path equal to the watched one keeps the running task. */
  lemma ComponentEqualPathKeepsWatcher(p: string, q: string, task: nat, spawned: nat)
    ensures var w := Some(Watcher(p + "/" + q, task));
      && Configured(w, spawned, p + "//" + q) == (w, spawned)
      && Configured(w, spawned, p + "/./" + q) == (w, spawned)
      && Configured(w, spawned, p + "/" + q + "/") == (w, spawned)
  {
    RepeatedSlashSamePath(p, q);
    InnerCurDirSamePath(p, q);
    TrailingSlashSamePath(p + "/" + q);
  }

  /** `RekordboxState`: at most one watcher at a time; `spawned` counts the tasks ever started. */
  class RekordboxState {
    var watcher: Option<Watcher>
    var spawned: nat

    /** `RekordboxState::default` */
    constructor ()
      ensures watcher.None? && spawned == 0
    {
      watcher := None;
      spawned := 0;
    }

    /** `configure`: keeps a watcher already on a path equal to `path`, otherwise replaces it by a new one. */
    method Configure(path: string)
      modifies this
      ensures (watcher, spawned) == Configured(old(watcher), old(spawned), path)
    {
      if watcher.Some? && SamePath(watcher.value.path, path) {
        return;
      }
      watcher := Some(Watcher(path, spawned));
      spawned := spawned + 1;
    }

    /** `disable` */
    method Disable()
      modifies this
      ensures watcher.None? && spawned == old(spawned)
    {
      watcher := None;
    }
  }

  /** The watcher's check: changed when there is no earlier time or the new one is strictly later. */
  predicate Changed(last: Option<nat>, modified: nat) {
    last.None? || modified > last.value
  }

  /**
   * `last_modified` after the polls `readings`; a poll whose metadata could
   * not be read (`None`) is skipped.
   */
  function LastModified(initial: Option<nat>, readings: seq<Option<nat>>): Option<nat> {
    if readings == [] then initial
    else
      var last := LastModified(initial, readings[..|readings| - 1]);
      var reading := readings[|readings| - 1];
      if reading.Some? && Changed(last, reading.value) then reading else last
  }

  /** The polls that found a change and reloaded the library. */
  function Reloads(initial: Option<nat>, readings: seq<Option<nat>>): seq<nat> {
    if readings == [] then []
    else
      var n := |readings| - 1;
      var last := LastModified(initial, readings[..n]);
      Reloads(initial, readings[..n])
      + (if readings[n].Some? && Changed(last, readings[n].value) then [n] else [])
  }

  /** The polling loop of the watcher task, over the modification times it reads. */
  method Watch(initial: Option<nat>, readings: seq<Option<nat>>) returns (last: Option<nat>, reloads: seq<nat>)
    ensures last == LastModified(initial, readings)
    ensures reloads == Reloads(initial, readings)
  {
    last, reloads := initial, [];
    for i := 0 to |readings|
      invariant last == LastModified(initial, readings[..i])
      invariant reloads == Reloads(initial, readings[..i])
    {
      assert readings[..i + 1][..i] == readings[..i];
      var reading := readings[i];
      if reading.Some? {
        var modified := reading.value;
        if Changed(last, modified) {
          last := Some(modified);
          reloads := reloads + [i];
        }
      }
    }
    assert readings[..|readings|] == readings;
  }

  /**
   * `last_modified` only moves forward and, once a time has been seen, is
   * the latest time seen.
   */
  lemma {:induction false} LastModifiedIsLatest(initial: Option<nat>, readings: seq<Option<nat>>)
    ensures var last := LastModified(initial, readings);
      && (initial.Some? ==> last.Some? && last.value >= initial.value)
      && (forall i :: 0 <= i < |readings| && readings[i].Some? ==> last.Some? && last.value >= readings[i].value)
      && (last.Some? ==> last == initial || exists i :: 0 <= i < |readings| && readings[i] == last)
  {
    if readings != [] {
      var n := |readings| - 1;
      var prefix := readings[..n];
      LastModifiedIsLatest(initial, prefix);
      assert forall i :: 0 <= i < n ==> prefix[i] == readings[i];
      var before := LastModified(initial, prefix);
      if before.Some? && before != initial {
        var i :| 0 <= i < |prefix| && prefix[i] == before;
        assert readings[i] == before;
      }
    }
  }

  /** Each reload is the index of a poll that read a time. */
  lemma {:induction false} ReloadsAreReadings(initial: Option<nat>, readings: seq<Option<nat>>)
    ensures forall k :: 0 <= k < |Reloads(initial, readings)| ==> Reloads(initial, readings)[k] < |readings|
    ensures forall k :: 0 <= k < |Reloads(initial, readings)| ==> readings[Reloads(initial, readings)[k]].Some?
  {
    if readings != [] {
      var n := |readings| - 1;
      var prefix := readings[..n];
      ReloadsAreReadings(initial, prefix);
      var before := Reloads(initial, prefix);
      var rs := Reloads(initial, readings);
      forall k | 0 <= k < |rs|
        ensures 0 <= rs[k] < |readings| && readings[rs[k]].Some?
      {
        if k < |before| {
          assert rs[k] == before[k];
          assert prefix[before[k]] == readings[before[k]];
        }
      }
    }
  }

  /** The last reload read the time `last_modified` holds. */
  lemma {:induction false} LastReloadIsLastModified(initial: Option<nat>, readings: seq<Option<nat>>)
    ensures Reloads(initial, readings) != [] ==>
      && Reloads(initial, readings)[|Reloads(initial, readings)| - 1] < |readings|
      && LastModified(initial, readings) == readings[Reloads(initial, readings)[|Reloads(initial, readings)| - 1]]
  {
    if readings != [] {
      var n := |readings| - 1;
      var prefix := readings[..n];
      LastReloadIsLastModified(initial, prefix);
      var before := Reloads(initial, prefix);
      var last := LastModified(initial, prefix);
      var rs := Reloads(initial, readings);
      if readings[n].Some? && Changed(last, readings[n].value) {
        assert rs == before + [n];
        assert LastModified(initial, readings) == readings[n];
      } else {
        assert rs == before;
        assert LastModified(initial, readings) == last;
        if before != [] {
          assert prefix[before[|before| - 1]] == readings[before[|before| - 1]];
        }
      }
    }
  }

  /** Each reload reads a time strictly later than the previous reload's. */
  lemma {:induction false} ReloadsAdvance(initial: Option<nat>, readings: seq<Option<nat>>)
    ensures forall k :: 0 <= k < |Reloads(initial, readings)| ==> Reloads(initial, readings)[k] < |readings|
    ensures forall k :: 0 <= k < |Reloads(initial, readings)| ==> readings[Reloads(initial, readings)[k]].Some?
    ensures forall i, j :: 0 <= i < j < |Reloads(initial, readings)| ==>
      Reloads(initial, readings)[i] < Reloads(initial, readings)[j]
      && readings[Reloads(initial, readings)[i]].value < readings[Reloads(initial, readings)[j]].value
  {
    ReloadsAreReadings(initial, readings);
    if readings != [] {
      var n := |readings| - 1;
      var prefix := readings[..n];
      ReloadsAdvance(initial, prefix);
      LastReloadIsLastModified(initial, prefix);
      LastModifiedIsLatest(initial, prefix);
      var before := Reloads(initial, prefix);
      var last := LastModified(initial, prefix);
      var rs := Reloads(initial, readings);
      assert forall i :: 0 <= i < n ==> prefix[i] == readings[i];
      if before != [] {
        assert last == readings[before[|before| - 1]];
      }
      if readings[n].Some? && Changed(last, readings[n].value) {
        assert rs == before + [n];
        forall i, j | 0 <= i < j < |rs|
          ensures rs[i] < rs[j] && readings[rs[i]].value < readings[rs[j]].value
        {
          assert rs[i] == before[i];
          assert readings[rs[i]] == prefix[before[i]];
          if j < |before| {
            assert rs[j] == before[j];
            assert readings[rs[j]] == prefix[before[j]];
          } else {
            assert rs[j] == n;
          }
        }
      } else {
        assert rs == before;
        forall i, j | 0 <= i < j < |rs|
          ensures rs[i] < rs[j] && readings[rs[i]].value < readings[rs[j]].value
        {
          assert readings[rs[i]] == prefix[before[i]];
          assert readings[rs[j]] == prefix[before[j]];
        }
      }
    }
  }
}
