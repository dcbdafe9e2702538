/** Runtime values and the callable objects (Functions/LoxFunction.cs, LoxClass.cs,
    LoxInstance.cs). `LoxFunction.Call` runs the interpreter and is modelled next to it
    (Interpreter.CallFunction), since the two call each other. */
module Runtime {
  import opened Tokens
  import opened Exceptions
  import opened Ast
  import opened Environments

  /** What a C# `object` holds at run time. */
  datatype Value =
    | VNil
    | VBool(b: bool)
    | VNum(n: real)
    | VStr(s: string)
    | VFunction(fn: LoxFunction)
    | VClass(cls: LoxClass)
    | VInstance(inst: LoxInstance)
      /** The native `clock` function bound in the global frame. */
    | VClock

  /** A user function: its declaration, the frame it closes over and the initializer flag. */
  class LoxFunction {
    const declaration: FunctionDecl
    const closure: Environment<Value>
    const isInitializer: bool

    constructor (declaration: FunctionDecl, closure: Environment<Value>, isInitializer: bool)
      ensures this.declaration == declaration && this.closure == closure
      ensures this.isInitializer == isInitializer
    {
      this.declaration := declaration;
      this.closure := closure;
      this.isInitializer := isInitializer;
    }

    function Arity(): nat {
      |declaration.params|
    }

    /** A copy of this function whose closure is a new frame, inside the old closure,
        binding only `this`; the old closure is not modified. */
    method Bind(instance: LoxInstance) returns (bound: LoxFunction)
      requires closure.Valid()
      ensures fresh(bound) && fresh(bound.closure)
      ensures bound.declaration == declaration && bound.isInitializer == isInitializer
      ensures bound.closure.Valid() && bound.closure.enclosing == closure
      ensures bound.closure.values == map["this" := VInstance(instance)]
    {
      var environment := new Environment(closure);
      environment.Define("this", VInstance(instance));
      bound := new LoxFunction(declaration, environment, isInitializer);
    }
  }

  /** A class: a name and a method table that is never changed after construction.
      There is no superclass link. */
  class LoxClass {
    const name: string
    const methods: map<string, LoxFunction>

    constructor (name: string, methods: map<string, LoxFunction>)
      ensures this.name == name && this.methods == methods
    {
      this.name := name;
      this.methods := methods;
    }

    /** Calling a class takes no arguments, whatever its methods. */
    function Arity(): nat {
      0
    }

    /** Looks a method up in this class's own table only. */
    function FindMethod(name: string): (r: Option<LoxFunction>)
      ensures r.Some? <==> name in methods
      ensures r.Some? ==> r.value == methods[name]
    {
      if name in methods then Some(methods[name]) else None
    }

    /** Ignores its arguments and returns a new instance without running an initializer. */
    method Call(arguments: seq<Value>) returns (v: Value)
      ensures v.VInstance? && fresh(v.inst)
      ensures v.inst.cls == this && v.inst.fields == map[]
    {
      var instance := new LoxInstance(this);
      v := VInstance(instance);
    }
  }

  /** An instance: its class and a mutable table of fields. */
  class LoxInstance {
    const cls: LoxClass
    var fields: map<string, Value>

    constructor (cls: LoxClass)
      ensures this.cls == cls && fields == map[]
    {
      this.cls := cls;
      fields := map[];
    }

    /** A field shadows a method; a method is returned unbound. */
    method Get(name: Token) returns (r: Result<Value>)
      ensures name.lexeme in fields ==> r == Ok(fields[name.lexeme])
      ensures name.lexeme !in fields && name.lexeme in cls.methods ==>
                r == Ok(VFunction(cls.methods[name.lexeme]))
      ensures name.lexeme !in fields && name.lexeme !in cls.methods ==>
                r == Err(RuntimeError(name, "Undefined property '" + name.lexeme + "'."))
    {
      if name.lexeme in fields {
        return Ok(fields[name.lexeme]);
      }
      var found := cls.FindMethod(name.lexeme);
      if found.Some? {
        return Ok(VFunction(found.value));
      }
      return Err(RuntimeError(name, "Undefined property '" + name.lexeme + "'."));
    }

    /** `fields.Add`: adds a new field, and throws when the field already exists. */
    method Set(name: Token, value: Value) returns (r: Result<()>)
      modifies this
      ensures name.lexeme in old(fields) ==> r.Err? && r.failure.HostFault? && fields == old(fields)
      ensures name.lexeme !in old(fields) ==> r == Ok(()) && fields == old(fields)[name.lexeme := value]
    {
      if name.lexeme in fields {
        return Err(HostFault("An item with the same key has already been added."));
      }
      fields := fields[name.lexeme := value];
      return Ok(());
    }
  }
}
