/**
 * The call bridge as a function of the four handle tables: one step per call
 * the module makes into the host, and runs of such calls.
 *
 * The host API is not modelled. Whatever it decides is an input carried by
 * the call: the object a constructor (createShader, createProgram,
 * createBuffer, getUniformLocation) hands back, the compile and link status,
 * and the info log. What the bridge sends to the host is recorded as the
 * table entries it resolved on the way (`forwarded`), where `None` stands for
 * the `undefined` of an id outside its table.
 */
module CallBridge {
  import opened Wrappers
  import opened MemoryWindow
  import opened HandleTables

  datatype TableKind = Shaders | Programs | Buffers | UniformLocations

  /** The four tables of a WasmHandler: shaders, glPrograms, glBuffers, glUniformLocations. */
  datatype Tables = Tables(shaders: Table, programs: Table, buffers: Table, uniformLocations: Table)
  {
    function Get(kind: TableKind): Table
    {
      match kind
      case Shaders => shaders
      case Programs => programs
      case Buffers => buffers
      case UniformLocations => uniformLocations
    }

    /** Every table of `this` is a prefix of the same table of `other`. */
    predicate ExtendedBy(other: Tables)
    {
      shaders <= other.shaders && programs <= other.programs &&
      buffers <= other.buffers && uniformLocations <= other.uniformLocations
    }
  }

  /** The tables as the constructor leaves them. */
  const Empty := Tables([], [], [], [])

  const CompileErrorPrefix := "Error compiling shader:"
  const LinkErrorPrefix := "Error linking program:"

  /** A call from the module into the host, with the host's answers it depends on. */
  datatype Call =
    | CompileShader(sourcePtr: int, sourceLen: int, shader: HostRef, compiled: bool, infoLog: string)
    | LinkShaderProgram(vertexShaderId: int, fragmentShaderId: int, program: HostRef, linked: bool, infoLog: string)
    | GetAttribLocation(programId: int, namePtr: int, nameLen: int)
    | GetUniformLocation(programId: int, namePtr: int, nameLen: int, location: HostRef)
    | Uniform4fv(locationId: int)
    | CreateBuffer(buffer: HostRef)
    | BindBuffer(bufferId: int)
    | UseProgram(programId: int)
  {
    /** The table this call appends to when it returns an id, if any. */
    function Creates(): Option<TableKind>
    {
      match this
      case CompileShader(_, _, _, _, _) => Some(Shaders)
      case LinkShaderProgram(_, _, _, _, _) => Some(Programs)
      case GetUniformLocation(_, _, _, _) => Some(UniformLocations)
      case CreateBuffer(_) => Some(Buffers)
      case _ => None
    }

    /** The host object this call appends. */
    function Created(): HostRef
      requires Creates().Some?
    {
      match this
      case CompileShader(_, _, shader, _, _) => shader
      case LinkShaderProgram(_, _, program, _, _) => program
      case GetUniformLocation(_, _, _, location) => location
      case CreateBuffer(buffer) => buffer
    }
  }

  /** How a JavaScript function ends: with a number, with `undefined`, or by throwing. */
  datatype Outcome = Returned(id: nat) | ReturnedNothing | Threw(exception: Exception)

  datatype Reply = Reply(tables: Tables, forwarded: seq<Option<HostRef>>, outcome: Outcome)

  /** The result of pushing `x` onto the table `kind`. */
  function Push(ts: Tables, kind: TableKind, x: HostRef): (r: Tables)
    ensures r.Get(kind) == ts.Get(kind) + [x]
  {
    match kind
    case Shaders => ts.(shaders := ts.shaders + [x])
    case Programs => ts.(programs := ts.programs + [x])
    case Buffers => ts.(buffers := ts.buffers + [x])
    case UniformLocations => ts.(uniformLocations := ts.uniformLocations + [x])
  }

  /** Pushing onto one table leaves the other three as they were. */
  lemma PushLeavesOtherTables(ts: Tables, kind: TableKind, x: HostRef, other: TableKind)
    requires other != kind
    ensures Push(ts, kind, x).Get(other) == ts.Get(other)
  {
  }

  /** Pushing extends every table. */
  lemma PushExtends(ts: Tables, kind: TableKind, x: HostRef)
    ensures ts.ExtendedBy(Push(ts, kind, x))
  {
  }

  /**
   * One call into the bridge, on tables `ts` and memory `mem`.
   * A call that returns an id has appended exactly one object, to its own
   * table, and the id is that table's old length; every other ending
   * (a thrown exception included) leaves all four tables as they were.
   */
  function Step(ts: Tables, mem: seq<Byte>, call: Call): (r: Reply)
    ensures r.outcome.Returned? ==>
      call.Creates().Some? &&
      r.outcome.id == |ts.Get(call.Creates().value)| &&
      Lookup(r.tables.Get(call.Creates().value), r.outcome.id) == Some(call.Created()) &&
      r.tables == Push(ts, call.Creates().value, call.Created())
    ensures !r.outcome.Returned? ==> r.tables == ts
    ensures call.CompileShader? ==>
      (r.outcome.Returned? <==> InBounds(mem, call.sourcePtr, call.sourceLen) && call.compiled)
    ensures call.LinkShaderProgram? ==> (r.outcome.Returned? <==> call.linked)
    ensures call.GetUniformLocation? ==>
      (r.outcome.Returned? <==> InBounds(mem, call.namePtr, call.nameLen))
    ensures call.CreateBuffer? ==> r.outcome.Returned?
    ensures call.CompileShader? ==>
      r.forwarded == [] &&
      (!InBounds(mem, call.sourcePtr, call.sourceLen) ==> r.outcome == Threw(RangeError)) &&
      (InBounds(mem, call.sourcePtr, call.sourceLen) && !call.compiled ==>
         r.outcome == Threw(Thrown(CompileErrorPrefix + call.infoLog)))
    ensures call.LinkShaderProgram? ==>
      r.forwarded == [Lookup(ts.shaders, call.vertexShaderId), Lookup(ts.shaders, call.fragmentShaderId)] &&
      (!call.linked ==> r.outcome == Threw(Thrown(LinkErrorPrefix + call.infoLog)))
    ensures call.GetAttribLocation? ==>
      if InBounds(mem, call.namePtr, call.nameLen)
      then r.outcome == ReturnedNothing && r.forwarded == [Lookup(ts.programs, call.programId)]
      else r.outcome == Threw(RangeError) && r.forwarded == []
    ensures call.GetUniformLocation? ==>
      if InBounds(mem, call.namePtr, call.nameLen)
      then r.forwarded == [Lookup(ts.programs, call.programId)]
      else r.outcome == Threw(RangeError) && r.forwarded == []
    ensures call.Uniform4fv? ==>
      r.outcome == ReturnedNothing && r.forwarded == [Lookup(ts.uniformLocations, call.locationId)]
    ensures call.CreateBuffer? ==> r.forwarded == []
    ensures call.BindBuffer? ==>
      r.outcome == ReturnedNothing && r.forwarded == [Lookup(ts.buffers, call.bufferId)]
    ensures call.UseProgram? ==>
      r.outcome == ReturnedNothing && r.forwarded == [Lookup(ts.programs, call.programId)]
    ensures r.outcome == Threw(RangeError) ==>
      (call.CompileShader? && !InBounds(mem, call.sourcePtr, call.sourceLen)) ||
      ((call.GetAttribLocation? || call.GetUniformLocation?) && !InBounds(mem, call.namePtr, call.nameLen))
  {
    match call
    case CompileShader(sourcePtr, sourceLen, shader, compiled, infoLog) =>
      if ReadCharStr(mem, sourcePtr, sourceLen).Failure? then Reply(ts, [], Threw(RangeError))
      else if !compiled then Reply(ts, [], Threw(Thrown(CompileErrorPrefix + infoLog)))
      else Reply(Push(ts, Shaders, shader), [], Returned(|ts.shaders|))
    case LinkShaderProgram(vertexShaderId, fragmentShaderId, program, linked, infoLog) =>
      var attached := [Lookup(ts.shaders, vertexShaderId), Lookup(ts.shaders, fragmentShaderId)];
      if !linked then Reply(ts, attached, Threw(Thrown(LinkErrorPrefix + infoLog)))
      else Reply(Push(ts, Programs, program), attached, Returned(|ts.programs|))
    case GetAttribLocation(programId, namePtr, nameLen) =>
      if ReadCharStr(mem, namePtr, nameLen).Failure? then Reply(ts, [], Threw(RangeError))
      else Reply(ts, [Lookup(ts.programs, programId)], ReturnedNothing)
    case GetUniformLocation(programId, namePtr, nameLen, location) =>
      if ReadCharStr(mem, namePtr, nameLen).Failure? then Reply(ts, [], Threw(RangeError))
      else Reply(Push(ts, UniformLocations, location), [Lookup(ts.programs, programId)],
                 Returned(|ts.uniformLocations|))
    case Uniform4fv(locationId) =>
      Reply(ts, [Lookup(ts.uniformLocations, locationId)], ReturnedNothing)
    case CreateBuffer(buffer) =>
      Reply(Push(ts, Buffers, buffer), [], Returned(|ts.buffers|))
    case BindBuffer(bufferId) =>
      Reply(ts, [Lookup(ts.buffers, bufferId)], ReturnedNothing)
    case UseProgram(programId) =>
      Reply(ts, [Lookup(ts.programs, programId)], ReturnedNothing)
  }

  /** One call as the module makes it: the memory at the time, and the call. */
  datatype Invocation = Invocation(mem: seq<Byte>, call: Call)

  /** The tables after a run of calls, each made on the tables the previous one left. */
  function After(ts: Tables, run: seq<Invocation>): Tables
  {
    if run == [] then ts
    else
      var last := run[|run| - 1];
      Step(After(ts, run[..|run| - 1]), last.mem, last.call).tables
  }

  /** The reply to the k-th call of a run. */
  function ReplyAt(ts: Tables, run: seq<Invocation>, k: nat): Reply
    requires k < |run|
  {
    Step(After(ts, run[..k]), run[k].mem, run[k].call)
  }

  /** Whether the k-th call of a run returned a new id into table `kind`. */
  predicate IssuesId(ts: Tables, run: seq<Invocation>, k: nat, kind: TableKind)
    requires k < |run|
  {
    ReplyAt(ts, run, k).outcome.Returned? && run[k].call.Creates() == Some(kind)
  }

  /** How many calls of a run returned a new id into table `kind`. */
  function Issued(ts: Tables, run: seq<Invocation>, kind: TableKind): nat
  {
    if run == [] then 0
    else Issued(ts, run[..|run| - 1], kind) + if IssuesId(ts, run, |run| - 1, kind) then 1 else 0
  }

  /** Each table grows by exactly the number of ids issued into it. */
  lemma {:induction false} TableLengthCountsIssuedIds(ts: Tables, run: seq<Invocation>, kind: TableKind)
    ensures |After(ts, run).Get(kind)| == |ts.Get(kind)| + Issued(ts, run, kind)
  {
    if run != [] {
      var n := |run| - 1;
      TableLengthCountsIssuedIds(ts, run[..n], kind);
      assert run[..n] == run[..n][..n];
      var created := run[n].call.Creates();
      if created.Some? && created.value != kind {
        PushLeavesOtherTables(After(ts, run[..n]), created.value, run[n].call.Created(), kind);
      }
    }
  }

  /** Each table after any prefix of a run is a prefix of the same table after the whole run. */
  lemma {:induction false} AfterPrefixIsExtended(ts: Tables, run: seq<Invocation>, j: nat, kind: TableKind)
    requires j <= |run|
    ensures After(ts, run[..j]).Get(kind) <= After(ts, run).Get(kind)
  {
    if j < |run| {
      var n := |run| - 1;
      assert run[..n][..j] == run[..j];
      AfterPrefixIsExtended(ts, run[..n], j, kind);
      assert run[..n] == run[..n][..n];
      var before := After(ts, run[..n]);
      var r := Step(before, run[n].mem, run[n].call);
      assert After(ts, run) == r.tables;
      if r.outcome.Returned? {
        PushExtends(before, run[n].call.Creates().value, run[n].call.Created());
      }
    } else {
      assert run[..j] == run;
    }
  }

  /** The tables after the first k + 1 calls are those the k-th call's reply leaves. */
  lemma AfterOneMore(ts: Tables, run: seq<Invocation>, k: nat)
    requires k < |run|
    ensures After(ts, run[..k + 1]) == ReplyAt(ts, run, k).tables
  {
    assert run[..k + 1][..k] == run[..k];
  }

  /**
   * Ids are insertion indices and stay valid: if the k-th call of a run
   * returned an id, that id is the table's starting length plus the number of
   * ids issued into the same table before it, and after the whole run the id
   * still resolves to the object that call appended.
   */
  lemma IssuedIdStaysValid(ts: Tables, run: seq<Invocation>, k: nat)
    requires k < |run| && ReplyAt(ts, run, k).outcome.Returned?
    ensures run[k].call.Creates().Some?
    ensures var kind := run[k].call.Creates().value;
      ReplyAt(ts, run, k).outcome.id == |ts.Get(kind)| + Issued(ts, run[..k], kind) &&
      Lookup(After(ts, run).Get(kind), ReplyAt(ts, run, k).outcome.id) == Some(run[k].call.Created())
  {
    var kind := run[k].call.Creates().value;
    var r := ReplyAt(ts, run, k);
    TableLengthCountsIssuedIds(ts, run[..k], kind);
    AfterOneMore(ts, run, k);
    AfterPrefixIsExtended(ts, run, k + 1, kind);
    LookupInExtension(r.tables.Get(kind), After(ts, run).Get(kind), r.outcome.id);
  }

  /** No id at or beyond the issued range resolves: the module cannot name an object not yet appended. */
  lemma UnissuedIdsDoNotResolve(ts: Tables, run: seq<Invocation>, kind: TableKind, id: int)
    requires id >= |ts.Get(kind)| + Issued(ts, run, kind)
    ensures Lookup(After(ts, run).Get(kind), id).None?
  {
    TableLengthCountsIssuedIds(ts, run, kind);
  }

  /** Ids issued up to and including call j are counted among those issued by the whole run. */
  lemma {:induction false} IssuedGrows(ts: Tables, run: seq<Invocation>, j: nat, kind: TableKind)
    requires j < |run|
    ensures Issued(ts, run[..j], kind) + (if IssuesId(ts, run, j, kind) then 1 else 0) <= Issued(ts, run, kind)
  {
    var n := |run| - 1;
    var prefix := run[..n];
    assert Issued(ts, run, kind) == Issued(ts, prefix, kind) + if IssuesId(ts, run, n, kind) then 1 else 0;
    if j < n {
      assert prefix[..j] == run[..j];
      assert ReplyAt(ts, prefix, j) == ReplyAt(ts, run, j);
      IssuedGrows(ts, prefix, j, kind);
    }
  }

  /** Two calls of one run never receive the same id from the same table. */
  lemma IssuedIdsAreDistinct(ts: Tables, run: seq<Invocation>, j: nat, k: nat, kind: TableKind)
    requires j < k < |run|
    requires IssuesId(ts, run, j, kind) && IssuesId(ts, run, k, kind)
    ensures ReplyAt(ts, run, j).outcome.id < ReplyAt(ts, run, k).outcome.id
  {
    IssuedIdStaysValid(ts, run, j);
    IssuedIdStaysValid(ts, run, k);
    assert run[..k][..j] == run[..j];
    assert IssuesId(ts, run[..k], j, kind) == IssuesId(ts, run, j, kind);
    IssuedGrows(ts, run[..k], j, kind);
  }
}
