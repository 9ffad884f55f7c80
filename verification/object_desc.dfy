/**
  The base object descriptor that kernel-code generation manipulates: a table of
  generator-visible state variables, an access-mode tag, and default behaviour for the
  extension points (constant expressions, selectors, resource enumeration, release).
 */
module ObjectDesc {
  import opened Descriptors
  import opened Resources

  /** Outcome of an operation that can fail: OK, or an error with a message. */
  datatype Status = Ok | Error(message: string)

  datatype Option<T> = None | Some(value: T)

  /** The entry of `key` in a state-variable table, if any. */
  function Lookup(vars: map<string, string>, key: string): (r: Option<string>)
    ensures r.Some? <==> key in vars
    ensures r.Some? ==> r.value == vars[key]
  {
    if key in vars then Some(vars[key]) else None
  }

  /** The two fields every object descriptor carries, as a value. */
  datatype DescriptorState = DescriptorState(stateVars: map<string, string>, access: AccessType)

  /** Inserts or overwrites one state variable. */
  function WithStateVar(d: DescriptorState, key: string, value: string): (d': DescriptorState)
    ensures Lookup(d'.stateVars, key) == Some(value)
    ensures d'.stateVars.Keys == d.stateVars.Keys + {key}
    ensures forall k :: k != key ==> Lookup(d'.stateVars, k) == Lookup(d.stateVars, k)
    ensures d'.access == d.access
  {
    d.(stateVars := d.stateVars[key := value])
  }

  /** Replaces the access tag. */
  function WithAccess(d: DescriptorState, access: AccessType): (d': DescriptorState)
    ensures d'.access == access
    ensures d'.stateVars == d.stateVars
  {
    d.(access := access)
  }

  /** A second write to the same key replaces the first entirely. */
  lemma StateVarOverwrite(d: DescriptorState, key: string, v1: string, v2: string)
    ensures WithStateVar(WithStateVar(d, key, v1), key, v2) == WithStateVar(d, key, v2)
  {
  }

  /** Writes to different keys do not interfere. */
  lemma StateVarsCommute(d: DescriptorState, k1: string, v1: string, k2: string, v2: string)
    requires k1 != k2
    ensures WithStateVar(WithStateVar(d, k1, v1), k2, v2) == WithStateVar(WithStateVar(d, k2, v2), k1, v1)
  {
  }

  /** Reading the access tag after setting it gives back what was set. */
  lemma AccessRoundTrip(d: DescriptorState, access: AccessType)
    ensures WithAccess(d, access).access == access
    ensures WithAccess(WithAccess(d, access), d.access) == d
  {
  }

  class GPUObjectDescriptor {
    var stateVars: map<string, string>
    var access: AccessType

    /** A descriptor with no state variables. The access tag has no default value in
        the source, so the caller supplies it. */
    constructor (access: AccessType)
      ensures stateVars == map[] && this.access == access
    {
      stateVars := map[];
      this.access := access;
    }

    /** The defaulted copy constructor: a new descriptor holding the same state
        variables and access tag, with no link back to `other`. */
    constructor Copy(other: GPUObjectDescriptor)
      ensures State() == other.State()
    {
      stateVars := other.stateVars;
      access := other.access;
    }

    /** The descriptor's fields as a value. */
    function State(): (d: DescriptorState)
      reads this
    {
      DescriptorState(stateVars, access)
    }

    method SetStateVar(key: string, value: string)
      modifies this
      ensures State() == WithStateVar(old(State()), key, value)
    {
      stateVars := stateVars[key := value];
    }

    /** The base descriptor knows no constant expressions: every name resolves to the
        empty text, which signals "not mine" rather than an error. */
    method PerformConstExpr(constExpr: string) returns (r: string)
      ensures r == ""
    {
      r := "";
    }

    /** The base descriptor knows no selectors, yet reports success with empty code,
        whatever the selector and its arguments. */
    method PerformSelector(selector: string, args: seq<string>, templateArgs: seq<string>)
      returns (status: Status, result: string)
      ensures status == Ok
      ensures result == ""
    {
      status, result := Ok, "";
    }

    /** The base descriptor binds no resources. */
    method GetGPUResources() returns (r: GPUResources)
      ensures forall g :: GroupNames(r, g) == []
      ensures AllNames(r) == []
    {
      r := Empty;
      assert GroupNames(r, Buffers) == [];
    }

    /** Releasing the base descriptor's (absent) payload changes none of its fields. */
    method Release()
      modifies this
      ensures State() == old(State())
    {
    }

    method SetAccess(access: AccessType)
      modifies this
      ensures State() == WithAccess(old(State()), access)
    {
      this.access := access;
    }

    method GetAccess() returns (a: AccessType)
      ensures a == access
    {
      a := access;
    }
  }

  /** A state variable written to one descriptor is visible there and absent from a
      descriptor constructed independently. */
  method StateVarIsolation(key: string, value: string, access: AccessType)
    returns (onWritten: Option<string>, onOther: Option<string>)
    ensures onWritten == Some(value)
    ensures onOther == None
  {
    var written := new GPUObjectDescriptor(access);
    var other := new GPUObjectDescriptor(access);
    written.SetStateVar(key, value);
    onWritten := Lookup(written.stateVars, key);
    onOther := Lookup(other.stateVars, key);
  }

  /** A copy is independent of its source: a state variable written to the copy is
      visible there and absent from the original. */
  method CopyIsIndependent(key: string, value: string, access: AccessType)
    returns (onOriginal: Option<string>, onCopy: Option<string>)
    ensures onOriginal == None
    ensures onCopy == Some(value)
  {
    var original := new GPUObjectDescriptor(access);
    var copy := new GPUObjectDescriptor.Copy(original);
    copy.SetStateVar(key, value);
    onOriginal := Lookup(original.stateVars, key);
    onCopy := Lookup(copy.stateVars, key);
  }

  /** GetAccess after SetAccess returns the tag that was set, and setting the access
      tag leaves the state variables as they were. */
  method SetThenGetAccess(key: string, value: string, initial: AccessType, access: AccessType)
    returns (read: AccessType, vars: map<string, string>)
    ensures read == access
    ensures vars == map[key := value]
  {
    var d := new GPUObjectDescriptor(initial);
    d.SetStateVar(key, value);
    d.SetAccess(access);
    read := d.GetAccess();
    vars := d.stateVars;
  }

  /** Release, however often it is called, leaves the access tag and the state
      variables readable and unchanged. */
  method ReleaseKeepsFields(key: string, value: string, access: AccessType)
    returns (read: AccessType, vars: map<string, string>)
    ensures read == access
    ensures vars == map[key := value]
  {
    var d := new GPUObjectDescriptor(access);
    d.SetStateVar(key, value);
    d.Release();
    d.Release();
    read := d.GetAccess();
    vars := d.stateVars;
  }
}
