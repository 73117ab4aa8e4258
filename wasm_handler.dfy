/**
 * The host-side object that the module's imports are bound to: four handle
 * tables that its calls append to and index into. Each method does what the
 * corresponding JavaScript method does, step by step, and is proved to agree
 * with `CallBridge.Step` on the tables, on what it forwards to the host and on
 * how it ends.
 */
module WasmHandlers {
  import opened Wrappers
  import opened MemoryWindow
  import opened HandleTables
  import opened CallBridge

  class WasmHandler {
    var shaders: seq<HostRef>
    var glPrograms: seq<HostRef>
    var glBuffers: seq<HostRef>
    var glUniformLocations: seq<HostRef>

    /** The four tables as a value. */
    function State(): Tables
      reads this
    {
      Tables(shaders, glPrograms, glBuffers, glUniformLocations)
    }

    /** All four tables start empty. */
    constructor ()
      ensures State() == Empty
    {
      shaders := [];
      glPrograms := [];
      glBuffers := [];
      glUniformLocations := [];
    }

    /**
     * Reads the source text, lets the host create and compile a shader, and
     * registers it only if it compiled; the new id is the push index.
     */
    method CompileShader(mem: seq<Byte>, sourcePtr: int, sourceLen: int,
                         shader: HostRef, compiled: bool, infoLog: string) returns (o: Outcome)
      modifies this
      ensures Step(old(State()), mem, Call.CompileShader(sourcePtr, sourceLen, shader, compiled, infoLog))
              == Reply(State(), [], o)
    {
      var source := ReadCharStr(mem, sourcePtr, sourceLen);
      if source.Failure? {
        return Threw(source.error);
      }
      if !compiled {
        return Threw(Thrown(CompileErrorPrefix + infoLog));
      }
      shaders := shaders + [shader];
      o := Returned(|shaders| - 1);
    }

    /**
     * Attaches the two shaders the ids name (JavaScript `undefined` for an id
     * outside the table) to a new program and registers it only if it linked.
     */
    method LinkShaderProgram(vertexShaderId: int, fragmentShaderId: int,
                             program: HostRef, linked: bool, infoLog: string)
      returns (o: Outcome, forwarded: seq<Option<HostRef>>)
      modifies this
      ensures forall mem ::
        Step(old(State()), mem, Call.LinkShaderProgram(vertexShaderId, fragmentShaderId, program, linked, infoLog))
        == Reply(State(), forwarded, o)
    {
      var vertexShader := Lookup(shaders, vertexShaderId);
      var fragmentShader := Lookup(shaders, fragmentShaderId);
      forwarded := [vertexShader, fragmentShader];
      if !linked {
        return Threw(Thrown(LinkErrorPrefix + infoLog)), forwarded;
      }
      glPrograms := glPrograms + [program];
      o := Returned(|glPrograms| - 1);
    }

    /**
     * Asks the host for an attribute location of the program the id names.
     * The location is dropped: the call returns `undefined`.
     */
    method GlGetAttribLocation(mem: seq<Byte>, programId: int, namePtr: int, nameLen: int)
      returns (o: Outcome, forwarded: seq<Option<HostRef>>)
      ensures o != Threw(RangeError) ==> o == ReturnedNothing && forwarded == [Lookup(glPrograms, programId)]
      ensures Step(State(), mem, Call.GetAttribLocation(programId, namePtr, nameLen)) == Reply(State(), forwarded, o)
    {
      var program := Lookup(glPrograms, programId);
      var name := ReadCharStr(mem, namePtr, nameLen);
      if name.Failure? {
        return Threw(name.error), [];
      }
      o, forwarded := ReturnedNothing, [program];
    }

    /**
     * Asks the host for a uniform location of the program the id names and
     * registers whatever the host hands back, `Null` included.
     */
    method GlGetUniformLocation(mem: seq<Byte>, programId: int, namePtr: int, nameLen: int, location: HostRef)
      returns (o: Outcome, forwarded: seq<Option<HostRef>>)
      modifies this
      ensures Step(old(State()), mem, Call.GetUniformLocation(programId, namePtr, nameLen, location))
              == Reply(State(), forwarded, o)
    {
      var program := Lookup(glPrograms, programId);
      var name := ReadCharStr(mem, namePtr, nameLen);
      if name.Failure? {
        return Threw(name.error), [];
      }
      forwarded := [program];
      glUniformLocations := glUniformLocations + [location];
      o := Returned(|glUniformLocations| - 1);
    }

    /** Hands the uniform location the id names to the host; no table changes. */
    method GlUniform4fv(locationId: int) returns (location: Option<HostRef>)
      ensures location.Some? <==> 0 <= locationId < |glUniformLocations|
      ensures location.Some? ==> location.value == glUniformLocations[locationId]
      ensures forall mem :: Step(State(), mem, Call.Uniform4fv(locationId)) == Reply(State(), [location], ReturnedNothing)
    {
      location := Lookup(glUniformLocations, locationId);
    }

    /** Registers the buffer the host creates; never fails. */
    method GlCreateBuffer(buffer: HostRef) returns (o: Outcome)
      modifies this
      ensures forall mem :: Step(old(State()), mem, Call.CreateBuffer(buffer)) == Reply(State(), [], o)
    {
      glBuffers := glBuffers + [buffer];
      o := Returned(|glBuffers| - 1);
    }

    /** The `glBindBuffer` import: hands the buffer the id names to the host; no table changes. */
    method GlBindBuffer(bufferId: int) returns (buffer: Option<HostRef>)
      ensures buffer.Some? <==> 0 <= bufferId < |glBuffers|
      ensures buffer.Some? ==> buffer.value == glBuffers[bufferId]
      ensures forall mem :: Step(State(), mem, Call.BindBuffer(bufferId)) == Reply(State(), [buffer], ReturnedNothing)
    {
      buffer := Lookup(glBuffers, bufferId);
    }

    /** The `glUseProgram` import: hands the program the id names to the host; no table changes. */
    method GlUseProgram(programId: int) returns (program: Option<HostRef>)
      ensures program.Some? <==> 0 <= programId < |glPrograms|
      ensures program.Some? ==> program.value == glPrograms[programId]
      ensures forall mem :: Step(State(), mem, Call.UseProgram(programId)) == Reply(State(), [program], ReturnedNothing)
    {
      program := Lookup(glPrograms, programId);
    }
  }
}
