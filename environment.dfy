/** The chain of scope frames (Environment.cs). A frame owns a mutable map from names to
    values and a read-only link to its enclosing frame; the global frame has none.
    The class is generic in the value type so that the runtime values, which capture
    frames as closures, can be defined on top of it. */
module Environments {
  import opened Tokens
  import opened Exceptions

  function UndefinedVariable(name: Token): Failure {
    RuntimeError(name, "Undefined variable '" + name.lexeme + "'.")
  }

  class Environment<V> {
    /** The enclosing frame; `readonly` in the source, so the chain never changes shape. */
    const enclosing: Environment?<V>
    var values: map<string, V>
    /** The frames above this one, nearest first. */
    ghost const ancestors: seq<Environment<V>>

    ghost predicate Valid()
      decreases |ancestors|
    {
      if enclosing == null then ancestors == []
      else
        && |ancestors| > 0 && ancestors[0] == enclosing
        && enclosing.ancestors == ancestors[1..]
        && enclosing.Valid()
    }

    /** The frames of the chain starting at this one. */
    ghost function Frames(): set<Environment<V>> {
      {this} + set e | e in ancestors
    }

    /** The frame `d` links up the chain. */
    ghost function AncestorAt(d: nat): (a: Environment<V>)
      requires Valid() && d <= |ancestors|
      ensures a == if d == 0 then this else ancestors[d - 1]
      ensures a.Valid() && a.ancestors == ancestors[d..]
      decreases d
    {
      if d == 0 then this else enclosing.AncestorAt(d - 1)
    }

    /** The bindings of the frames of the chain, this frame's first. */
    ghost function Chain(): (c: seq<map<string, V>>)
      requires Valid()
      reads Frames()
      ensures |c| == |ancestors| + 1 && c[0] == values
      ensures forall d | 0 <= d <= |ancestors| :: c[d] == AncestorAt(d).values
      decreases |ancestors|
    {
      if enclosing == null then [values]
      else
        assert enclosing.Frames() <= Frames();
        [values] + enclosing.Chain()
    }

    /** The chain's bindings are those of its frames and depend on nothing else. */
    twostate lemma {:induction false} ChainUnchanged()
      requires Valid() && forall f | f in Frames() :: old(f.values) == f.values
      ensures old(Chain()) == Chain()
      decreases |ancestors|
    {
      if enclosing != null {
        assert enclosing.Frames() <= Frames();
        enclosing.ChainUnchanged();
      }
    }

    /** No frame is its own ancestor, so defining a name in a frame leaves the frames
        around it as they were. */
    lemma {:induction false} NotOwnAncestor()
      requires Valid()
      ensures enclosing != null ==> this !in enclosing.Frames()
    {
      if enclosing != null {
        forall k | 0 <= k < |ancestors|
          ensures |ancestors[k].ancestors| < |ancestors|
        {
          assert AncestorAt(k + 1) == ancestors[k];
        }
      }
    }

    /** The distance to the nearest frame on the chain that binds `name`, if any. */
    ghost function Distance(name: string): (r: Option<nat>)
      requires Valid()
      reads Frames()
      ensures r.Some? ==> r.value <= |ancestors| && name in AncestorAt(r.value).values
      decreases |ancestors|
    {
      if name in values then Some(0)
      else if enclosing == null then None
      else
        match enclosing.Distance(name)
        case None => None
        case Some(d) => Some(d + 1)
    }

    /** Creates the global frame (`new Environment()`). */
    constructor Global()
      ensures Valid() && enclosing == null && values == map[]
      ensures ancestors == []
    {
      enclosing := null;
      ancestors := [];
      values := map[];
    }

    /** Creates an empty frame inside `enclosing` (`new Environment(enclosing)`). */
    constructor (enclosing: Environment<V>)
      requires enclosing.Valid()
      ensures Valid() && this.enclosing == enclosing && values == map[]
      ensures ancestors == [enclosing] + enclosing.ancestors
    {
      this.enclosing := enclosing;
      ancestors := [enclosing] + enclosing.ancestors;
      values := map[];
    }

    /** Searches this frame, then each enclosing frame in turn. */
    method Get(name: Token) returns (r: Result<V>)
      requires Valid()
      ensures match Distance(name.lexeme)
              case Some(d) => r == Ok(AncestorAt(d).values[name.lexeme])
              case None => r == Err(UndefinedVariable(name))
      decreases |ancestors|
    {
      if name.lexeme in values {
        return Ok(values[name.lexeme]);
      }
      if enclosing != null {
        r := enclosing.Get(name);
        return;
      }
      return Err(UndefinedVariable(name));
    }

    /** Binds or rebinds `name` in this frame only. */
    method Define(name: string, value: V)
      modifies this
      ensures values == old(values)[name := value]
    {
      values := values[name := value];
    }

    /** Updates the nearest frame that binds `name`; no other frame changes. */
    method Assign(name: Token, value: V) returns (r: Result<()>)
      requires Valid()
      modifies Frames()
      ensures r == if old(Distance(name.lexeme)).Some? then Ok(()) else Err(UndefinedVariable(name))
      ensures forall e :: e in Frames() ==>
        e.values == if old(Distance(name.lexeme)).Some? && e == AncestorAt(old(Distance(name.lexeme)).value)
                    then old(e.values)[name.lexeme := value]
                    else old(e.values)
      ensures forall e :: e in Frames() ==> e.values.Keys == old(e.values.Keys)
      decreases |ancestors|
    {
      if name.lexeme in values {
        Define(name.lexeme, value);
        return Ok(());
      }
      if enclosing != null {
        r := enclosing.Assign(name, value);
        return;
      }
      return Err(UndefinedVariable(name));
    }

    /** Follows exactly `distance` enclosing links. */
    method Ancestor(distance: nat) returns (e: Environment<V>)
      requires Valid() && distance <= |ancestors|
      ensures e == AncestorAt(distance)
    {
      e := this;
      for i := 0 to distance
        invariant e == AncestorAt(i)
      {
        AncestorStep(i);
        e := e.enclosing;
      }
    }

    /** Reads `name` from the frame exactly `distance` links up, never searching further. */
    method GetAt(distance: nat, name: string) returns (v: V)
      requires Valid() && distance <= |ancestors| && name in AncestorAt(distance).values
      ensures v == AncestorAt(distance).values[name]
    {
      var frame := Ancestor(distance);
      v := frame.values[name];
    }

    /** Whether the frame `distance` links up exists and binds `name`: exactly when
        `GetAt` and `AssignAt` find their binding instead of throwing (a null
        dereference past the global frame, or a missing key). */
    method Binds(distance: nat, name: string) returns (b: bool)
      requires Valid()
      ensures b == (distance <= |ancestors| && name in AncestorAt(distance).values)
    {
      var e := this;
      var i := 0;
      while i < distance && e.enclosing != null
        invariant i <= distance && i <= |ancestors| && e == AncestorAt(i)
      {
        AncestorStep(i);
        e := e.enclosing;
        i := i + 1;
      }
      b := i == distance && name in e.values;
    }

    /** `AssignAt` as written: `Ancestor(distance).values.Add(name, value)`, which throws
        when the frame already binds the name. */
    method AssignAtAsWritten(distance: nat, name: Token, value: V) returns (r: Result<()>)
      requires Valid() && distance <= |ancestors|
      modifies AncestorAt(distance)
      ensures var a := AncestorAt(distance);
              if name.lexeme in old(a.values)
              then r.Err? && r.failure.HostFault? && a.values == old(a.values)
              else r == Ok(()) && a.values == old(a.values)[name.lexeme := value]
    {
      var frame := Ancestor(distance);
      if name.lexeme in frame.values {
        return Err(HostFault("An item with the same key has already been added."));
      }
      frame.values := frame.values[name.lexeme := value];
      return Ok(());
    }

    /** `AssignAt` as evidently intended: overwrite the existing binding in the frame
        exactly `distance` links up, the write counterpart of `GetAt`. */
    method AssignAt(distance: nat, name: Token, value: V)
      requires Valid() && distance <= |ancestors| && name.lexeme in AncestorAt(distance).values
      modifies AncestorAt(distance)
      ensures AncestorAt(distance).values == old(AncestorAt(distance).values)[name.lexeme := value]
      ensures AncestorAt(distance).values.Keys == old(AncestorAt(distance).values.Keys)
    {
      var frame := Ancestor(distance);
      frame.Define(name.lexeme, value);
    }

    lemma {:induction false} AncestorStep(i: nat)
      requires Valid() && i < |ancestors|
      ensures AncestorAt(i).enclosing != null && AncestorAt(i + 1) == AncestorAt(i).enclosing
      decreases i
    {
      if i > 0 {
        enclosing.AncestorStep(i - 1);
      }
    }

    /** The distance found is that of the NEAREST frame binding the name, and no frame
        binds it when there is none. */
    lemma {:induction false} DistanceIsNearest(name: string)
      requires Valid()
      ensures match Distance(name)
              case Some(d) => forall j :: 0 <= j < d ==> name !in AncestorAt(j).values
              case None => forall j :: 0 <= j <= |ancestors| ==> name !in AncestorAt(j).values
      decreases |ancestors|
    {
      if name !in values && enclosing != null {
        enclosing.DistanceIsNearest(name);
        forall j | 0 < j <= |ancestors|
          ensures AncestorAt(j) == enclosing.AncestorAt(j - 1)
        {
        }
      }
    }
  }

  /** `{ var a = 1; { a = 2; } }`: the assignment is resolved to distance 1, the frame of
      the outer block, which already binds `a`, and `AssignAt` as written throws there. */
  method AssignAtRebindFails() returns (r: Result<()>)
    ensures r.Err? && r.failure.HostFault?
  {
    var globals := new Environment<int>.Global();
    globals.Define("a", 1);
    var block := new Environment(globals);
    r := block.AssignAtAsWritten(1, Token(Identifier, "a", NilLit, 1), 2);
  }

  /** The same assignment through the corrected `AssignAt` overwrites the binding, and
      `GetAt` then reads the new value. */
  method AssignAtRebindOverwrites() returns (v: int)
    ensures v == 2
  {
    var globals := new Environment<int>.Global();
    globals.Define("a", 1);
    var block := new Environment(globals);
    var name := Token(Identifier, "a", NilLit, 1);
    block.AssignAt(1, name, 2);
    v := block.GetAt(1, "a");
  }
}
