/** The environment the logger runs against: files it opens and closes, and
    writers that receive lines. Writer identities are opaque handles; a file
    the logger opens gets a handle never used before, or the open fails. */
module Os {
  import opened Wrappers

  /** Identity of an `io.Writer`, used as a map key. Open files are writers too. */
  type Handle = nat

  datatype Access = ReadOnly | WriteOnly | ReadWrite

  /** The `os.OpenFile` flags the logger uses. */
  datatype OpenFlags = OpenFlags(create: bool, append: bool, access: Access)

  /** O_CREATE|O_APPEND|O_RDWR: the file opened when the logger is built. */
  const BuildFlags := OpenFlags(true, true, ReadWrite)

  /** O_CREATE|O_APPEND with no access bits, which is O_RDONLY: the file
      opened on rotation. */
  const RotateFlags := OpenFlags(true, true, ReadOnly)

  datatype FileRec = FileRec(path: string, flags: OpenFlags)

  /** Files the logger has opened (`recs`, by handle), which of them are still
      open, the next fresh handle, and the paths whose open fails (a missing
      `./log` directory, say). */
  datatype Files = Files(nextId: Handle, recs: map<Handle, FileRec>, open: set<Handle>, unopenable: set<string>)

  /** Every handle handed out lies below `nextId`; only opened files are open. */
  predicate FilesOk(fs: Files)
  {
    (forall h :: h in fs.recs ==> h < fs.nextId) && fs.open <= fs.recs.Keys
  }

  /** `os.OpenFile`: either a failure that changes nothing, or a handle never
      handed out before, now open and recorded with its path and flags. */
  function OpenFile(fs: Files, path: string, flags: OpenFlags): (r: (Files, Option<Handle>))
    ensures r.1.None? <==> path in fs.unopenable
    ensures r.1.None? ==> r.0 == fs
    ensures r.1.Some? ==>
      var h := r.1.value;
      h == fs.nextId && r.0.nextId == h + 1 &&
      r.0.recs == fs.recs[h := FileRec(path, flags)] && r.0.open == fs.open + {h} &&
      r.0.unopenable == fs.unopenable
    ensures FilesOk(fs) ==> FilesOk(r.0) && (r.1.Some? ==> r.1.value !in fs.recs)
  {
    if path in fs.unopenable then (fs, None)
    else
      var h := fs.nextId;
      (fs.(nextId := h + 1, recs := fs.recs[h := FileRec(path, flags)], open := fs.open + {h}), Some(h))
  }

  /** `(*os.File).Close`: succeeds on an open file; a nil or closed file only
      yields an error. */
  function CloseFile(fs: Files, h: Option<Handle>): (r: (Files, bool))
    ensures r.1 <==> h.Some? && h.value in fs.open
    ensures r.0.open == if h.Some? then fs.open - {h.value} else fs.open
    ensures r.0.nextId == fs.nextId && r.0.recs == fs.recs && r.0.unopenable == fs.unopenable
  {
    match h
    case None => (fs, false)
    case Some(k) => (fs.(open := fs.open - {k}), k in fs.open)
  }

  predicate Writable(flags: OpenFlags)
  {
    flags.access != ReadOnly
  }

  /** Whether a write to `h` lands: the writer must not be failing, and a file
      the logger opened must still be open with write access. */
  predicate Delivers(fs: Files, broken: set<Handle>, h: Handle)
  {
    h !in broken && (h in fs.recs ==> h in fs.open && Writable(fs.recs[h].flags))
  }

  /** The lines writer `h` has received, oldest first. */
  function TraceOf(traces: map<Handle, seq<string>>, h: Handle): seq<string>
  {
    if h in traces then traces[h] else []
  }

  /** The mutable world: files, writers whose writes fail, and the lines each
      writer has received. */
  class World {
    var fs: Files
    var broken: set<Handle>
    var traces: map<Handle, seq<string>>

    ghost predicate Valid()
      reads this
    {
      FilesOk(fs)
    }

    constructor (firstId: Handle, unopenable: set<string>, broken: set<Handle>)
      ensures Valid()
      ensures fs == Files(firstId, map[], {}, unopenable)
      ensures this.broken == broken && traces == map[]
    {
      fs := Files(firstId, map[], {}, unopenable);
      this.broken := broken;
      traces := map[];
    }

    method Open(path: string, flags: OpenFlags) returns (h: Option<Handle>)
      requires Valid()
      modifies this
      ensures Valid()
      ensures (fs, h) == OpenFile(old(fs), path, flags)
      ensures broken == old(broken) && traces == old(traces)
    {
      var r := OpenFile(fs, path, flags);
      fs := r.0;
      h := r.1;
    }

    method Close(h: Option<Handle>) returns (ok: bool)
      requires Valid()
      modifies this
      ensures Valid()
      ensures (fs, ok) == CloseFile(old(fs), h)
      ensures broken == old(broken) && traces == old(traces)
    {
      var r := CloseFile(fs, h);
      fs := r.0;
      ok := r.1;
    }

    /** One write of one line; a failed write is dropped, as the logger ignores it. */
    method Write(h: Handle, line: string)
      modifies this
      ensures fs == old(fs) && broken == old(broken)
      ensures forall k :: (TraceOf(traces, k) ==
        if k == h && Delivers(fs, broken, h) then TraceOf(old(traces), k) + [line] else TraceOf(old(traces), k))
    {
      if Delivers(fs, broken, h) {
        traces := traces[h := TraceOf(traces, h) + [line]];
      }
    }
  }
}
