/** The emitter as the object that collects declarations, reserved names and the fresh-name counter in place. */
module Emitter {
  import opened Wrappers
  import opened Schema
  import opened EmitterSpec

  class RustEmitter {
    var definitions: seq<Decl>
    var names: set<string>
    var next: nat

    function View(): Output
      reads this
    {
      Output(definitions, names, next)
    }

    constructor ()
      ensures View() == EmptyOutput
    {
      definitions, names, next := [], {}, 0;
    }

    method Line(d: Decl)
      modifies this
      ensures View() == Push(old(View()), d)
    {
      definitions := definitions + [d];
    }

    method ReserveName(name: string) returns (failure: Option<Error>)
      modifies this
      ensures match Reserve(old(View()), name)
              case Err(error) => failure == Some(error)
              case Ok(e) => failure == None && View() == e
    {
      if name in names {
        return Some(DuplicateIdentifier(name));
      }
      names := names + {name};
      return None;
    }

    method EmitNested(schema: Type) returns (r: Result<RustType, Error>)
      modifies this
      ensures match Nested(old(View()), schema)
              case Err(error) => r == Err(error)
              case Ok((e, ty)) => r == Ok(ty) && View() == e
      decreases schema, 1
    {
      match schema {
        case Any => return Ok(RValue);
        case Unit => return Ok(RUnit);
        case Bool => return Ok(RBool);
        case I64 => return Ok(RI64);
        case U64 => return Ok(RU64);
        case F64 => return Ok(RF64);
        case String => return Ok(RString);
        case Bytes => return Ok(RBytes);
        case Optional(item) =>
          r := EmitNested(item);
          return if r.Ok? then Ok(ROption(r.value)) else r;
        case List(item) =>
          r := EmitNested(item);
          return if r.Ok? then Ok(RVec(r.value)) else r;
        case Map(item) =>
          r := EmitNested(item);
          return if r.Ok? then Ok(RBTreeMap(r.value)) else r;
        case Array(item, len) =>
          r := EmitNested(item);
          return if r.Ok? then Ok(RArray(r.value, len)) else r;
        case Table(_) =>
          r := EmitStructural(schema);
        case Variant(_) =>
          r := EmitStructural(schema);
        case Callable(_, _, _) =>
          r := EmitCallable(schema);
        case Object(contract) =>
          r := EmitObject(contract);
        case Never => return Err(UnsupportedSchema(schema));
      }
    }

    method EmitStructural(schema: Type) returns (r: Result<RustType, Error>)
      requires schema.Table? || schema.Variant?
      modifies this
      ensures match NestedDefine(old(View()), schema)
              case Err(error) => r == Err(error)
              case Ok((e, ty)) => r == Ok(ty) && View() == e
      decreases schema, 0, 1
    {
      var name := Generated(Structural, next);
      next := next + 1;
      var failure := DefineNamed(name, schema);
      return if failure.Some? then Err(failure.value) else Ok(RName(name));
    }

    /** The declaration of a callable or object wrapper under a fresh name. */
    method EmitWrapper(kind: Kind, declare: string -> Decl) returns (r: Result<RustType, Error>)
      modifies this
      ensures var name := Generated(kind, old(next));
              match Reserve(old(View()).(next := old(next) + 1), name)
              case Err(error) => r == Err(error)
              case Ok(e) => r == Ok(RName(name)) && View() == Push(e, declare(name))
    {
      var name := Generated(kind, next);
      next := next + 1;
      var failure := ReserveName(name);
      if failure.Some? {
        return Err(failure.value);
      }
      Line(declare(name));
      return Ok(RName(name));
    }

    method EmitCallable(schema: Type) returns (r: Result<RustType, Error>)
      requires schema.Callable?
      modifies this
      ensures match Nested(old(View()), schema)
              case Err(error) => r == Err(error)
              case Ok((e, ty)) => r == Ok(ty) && View() == e
      decreases schema, 0
    {
      var input := EmitNested(schema.input);
      if input.Err? {
        return input;
      }
      var output := EmitNested(schema.output);
      if output.Err? {
        return output;
      }
      r := EmitWrapper(CallableKind, name => CallableStruct(name, schema.contract, input.value, output.value));
    }

    method EmitObject(contract: string) returns (r: Result<RustType, Error>)
      modifies this
      ensures match Nested(old(View()), Object(contract))
              case Err(error) => r == Err(error)
              case Ok((e, ty)) => r == Ok(ty) && View() == e
    {
      r := EmitWrapper(ObjectKind, name => ObjectStruct(name, contract));
    }

    method DefineNamed(name: string, schema: Type) returns (failure: Option<Error>)
      modifies this
      ensures match Define(old(View()), name, schema)
              case Err(error) => failure == Some(error)
              case Ok(e) => failure == None && View() == e
      decreases schema, 0, 0
    {
      failure := ReserveName(name);
      if failure.Some? {
        return;
      }
      if !schema.Table? && !schema.Variant? {
        return Some(UnsupportedSchema(schema));
      }
      var fields := if schema.Table? then schema.fields else schema.variants;
      var members := EmitBody(fields, schema.Variant?);
      if members.Err? {
        return Some(members.error);
      }
      Line(if schema.Table? then Struct(name, members.value) else Enum(name, members.value));
    }

    /** The loop over the fields of a struct or the variants of an enum. */
    method EmitBody(fields: Fields, variant: bool) returns (r: Result<Members, Error>)
      modifies this
      ensures match EmitMembers(old(View()), fields, variant)
              case Err(error) => r == Err(error)
              case Ok((e, members)) => r == Ok(members) && View() == e
      decreases fields, 0
    {
      var left := fields;
      var body: seq<(string, Option<RustType>)> := [];
      ghost var start := View();
      while left.Field?
        invariant left == fields || left < fields
        invariant EmitMembers(start, fields, variant) == Prepend(body, EmitMembers(View(), left, variant))
        decreases left
      {
        var key, schema := left.key, left.schema;
        if !IsIdentifier(key) {
          return Err(InvalidIdentifier(key));
        }
        if variant && schema.Unit? {
          PrependSnoc(body, key, None, EmitMembers(View(), left.rest, variant));
          body := body + [(key, None)];
        } else {
          var ty := EmitNested(schema);
          if ty.Err? {
            return Err(ty.error);
          }
          PrependSnoc(body, key, Some(ty.value), EmitMembers(View(), left.rest, variant));
          body := body + [(key, Some(ty.value))];
        }
        left := left.rest;
      }
      return Ok(Assemble(body, NoMember));
    }

    /** `role`: an alias, and a constant whose name is not reserved. */
    method EmitRoleItem(id: string, role: Role, payload: string) returns (failure: Option<Error>)
      modifies this
      ensures match EmitRole(old(View()), id, role, payload)
              case Err(error) => failure == Some(error)
              case Ok(e) => failure == None && View() == e
    {
      var name := Symbol(id, role);
      if name.Err? {
        return Some(name.error);
      }
      failure := ReserveName(name.value);
      if failure.Some? {
        return;
      }
      var target := Symbol(payload, TypeRole);
      if target.Err? {
        return Some(target.error);
      }
      Line(Alias(name.value, target.value));
      Line(IdConstant(UpperAll(name.value), id));
    }

    /** The loop over the descriptor's types. */
    method EmitTypeTable(types: seq<TypeEntry>) returns (failure: Option<Error>)
      modifies this
      ensures match DefineTypes(old(View()), types)
              case Err(error) => failure == Some(error)
              case Ok(e) => failure == None && View() == e
    {
      ghost var start := View();
      assert types[0..] == types;
      for i := 0 to |types|
        invariant DefineTypes(start, types) == DefineTypes(View(), types[i..])
      {
        assert types[i..][1..] == types[i + 1..] && types[i..][0] == types[i];
        var name := Symbol(types[i].id, TypeRole);
        if name.Err? {
          return Some(name.error);
        }
        failure := DefineNamed(name.value, types[i].schema);
        if failure.Some? {
          return;
        }
        Line(ContractImpl(name.value, types[i].id));
      }
      return None;
    }
  
    /** An operation after its references were checked. */
    method EmitOperationItem(d: Descriptor, o: Operation) returns (failure: Option<Error>)
      modifies this
      ensures match EmitOperation(old(View()), d, o)
              case Err(error) => failure == Some(error)
              case Ok(e) => failure == None && View() == e
    {
      for i := 0 to 3
        invariant View() == old(View())
        invariant i > 0 ==> HasType(d, o.input)
        invariant i > 1 ==> HasType(d, o.output)
        invariant i > 2 ==> HasType(d, o.error)
      {
        var reference := [o.input, o.output, o.error][i];
        if !HasType(d, reference) {
          return Some(MissingReference(reference));
        }
      }
      if !HasCapability(d, o.capability) {
        return Some(MissingReference(o.capability));
      }
      var name := Symbol(o.id, OperationRole);
      if name.Err? {
        return Some(name.error);
      }
      failure := ReserveName(name.value);
      if failure.Some? {
        return;
      }
      var input := Symbol(o.input, TypeRole);
      if input.Err? {
        return Some(input.error);
      }
      var output := Symbol(o.output, TypeRole);
      if output.Err? {
        return Some(output.error);
      }
      Line(OperationStruct(name.value, o.id, o.capability, input.value, output.value));
    }

    method EmitOperationTable(d: Descriptor) returns (failure: Option<Error>)
      modifies this
      ensures match EmitOperations(old(View()), d, d.operations)
              case Err(error) => failure == Some(error)
              case Ok(e) => failure == None && View() == e
    {
      ghost var start := View();
      assert d.operations[0..] == d.operations;
      for i := 0 to |d.operations|
        invariant EmitOperations(start, d, d.operations) == EmitOperations(View(), d, d.operations[i..])
      {
        assert d.operations[i..][1..] == d.operations[i + 1..];
        failure := EmitOperationItem(d, d.operations[i]);
        if failure.Some? {
          return;
        }
      }
      return None;
    }

    method EmitEventTable(d: Descriptor) returns (failure: Option<Error>)
      modifies this
      ensures match EmitEvents(old(View()), d, d.events)
              case Err(error) => failure == Some(error)
              case Ok(e) => failure == None && View() == e
    {
      ghost var start := View();
      assert d.events[0..] == d.events;
      for i := 0 to |d.events|
        invariant EmitEvents(start, d, d.events) == EmitEvents(View(), d, d.events[i..])
      {
        assert d.events[i..][1..] == d.events[i + 1..];
        var event := d.events[i];
        if !HasType(d, event.payload) {
          return Some(MissingReference(event.payload));
        }
        if !HasCapability(d, event.capability) {
          return Some(MissingReference(event.capability));
        }
        failure := EmitRoleItem(event.id, EventRole, event.payload);
        if failure.Some? {
          return;
        }
      }
      return None;
    }

    method EmitCallbackItem(d: Descriptor, c: Callback) returns (failure: Option<Error>)
      modifies this
      ensures match EmitCallback(old(View()), d, c)
              case Err(error) => failure == Some(error)
              case Ok(e) => failure == None && View() == e
    {
      if !HasType(d, c.request) {
        return Some(MissingReference(c.request));
      }
      if !HasType(d, c.response) {
        return Some(MissingReference(c.response));
      }
      if !HasCapability(d, c.capability) {
        return Some(MissingReference(c.capability));
      }
      failure := EmitRoleItem(c.id, RequestRole, c.request);
      if failure.Some? {
        return;
      }
      failure := EmitRoleItem(c.id, ResponseRole, c.response);
    }

    method EmitCallbackTable(d: Descriptor) returns (failure: Option<Error>)
      modifies this
      ensures match EmitCallbacks(old(View()), d, d.callbacks)
              case Err(error) => failure == Some(error)
              case Ok(e) => failure == None && View() == e
    {
      ghost var start := View();
      assert d.callbacks[0..] == d.callbacks;
      for i := 0 to |d.callbacks|
        invariant EmitCallbacks(start, d, d.callbacks) == EmitCallbacks(View(), d, d.callbacks[i..])
      {
        assert d.callbacks[i..][1..] == d.callbacks[i + 1..];
        failure := EmitCallbackItem(d, d.callbacks[i]);
        if failure.Some? {
          return;
        }
      }
      return None;
    }

    method EmitCapabilityItem(d: Descriptor, c: Capability) returns (failure: Option<Error>)
      modifies this
      ensures match EmitCapability(old(View()), d, c)
              case Err(error) => failure == Some(error)
              case Ok(e) => failure == None && View() == e
    {
      assert c.dependencies[0..] == c.dependencies;
      for i := 0 to |c.dependencies|
        invariant View() == old(View())
        invariant FirstMissing(d, c.dependencies) == FirstMissing(d, c.dependencies[i..])
      {
        assert c.dependencies[i..][1..] == c.dependencies[i + 1..];
        if !HasCapability(d, c.dependencies[i]) {
          return Some(MissingReference(c.dependencies[i]));
        }
      }
      var name := Symbol(c.id, CapabilityRole);
      if name.Err? {
        return Some(name.error);
      }
      failure := ReserveName(name.value);
      if failure.None? {
        Line(CapabilityStruct(name.value, c.id));
      }
    }

    method EmitCapabilityTable(d: Descriptor) returns (failure: Option<Error>)
      modifies this
      ensures match EmitCapabilities(old(View()), d, d.capabilities)
              case Err(error) => failure == Some(error)
              case Ok(e) => failure == None && View() == e
    {
      ghost var start := View();
      assert d.capabilities[0..] == d.capabilities;
      for i := 0 to |d.capabilities|
        invariant EmitCapabilities(start, d, d.capabilities) == EmitCapabilities(View(), d, d.capabilities[i..])
      {
        assert d.capabilities[i..][1..] == d.capabilities[i + 1..];
        failure := EmitCapabilityItem(d, d.capabilities[i]);
        if failure.Some? {
          return;
        }
      }
      return None;
    }
  }

  /** `rust`: what the object emits is what the function on descriptors says. */
  method GenerateRust(d: Descriptor) returns (r: Result<seq<Decl>, Error>)
    ensures r == Rust(d)
  {
    var emitter := new RustEmitter();
    emitter.Line(InterfaceId(d.id));
    var failure := emitter.EmitTypeTable(d.types);
    if failure.Some? {
      return Err(failure.value);
    }
    var names := TypeNames(d.types);
    if names.Err? {
      return Err(names.error);
    }
    emitter.Line(TypeSchemas(names.value));
    failure := emitter.EmitOperationTable(d);
    if failure.Some? {
      return Err(failure.value);
    }
    failure := emitter.EmitEventTable(d);
    if failure.Some? {
      return Err(failure.value);
    }
    failure := emitter.EmitCallbackTable(d);
    if failure.Some? {
      return Err(failure.value);
    }
    failure := emitter.EmitCapabilityTable(d);
    if failure.Some? {
      return Err(failure.value);
    }
    return Ok(emitter.definitions);
  }

  function Assemble(body: seq<(string, Option<RustType>)>, rest: Members): Members {
    if body == [] then rest else Member(body[0].0, body[0].1, Assemble(body[1..], rest))
  }

  /** The members collected so far put before the outcome for the remaining fields. */
  function Prepend(body: seq<(string, Option<RustType>)>, r: Result<(Output, Members), Error>)
    : Result<(Output, Members), Error>
  {
    if r.Err? then r else Ok((r.value.0, Assemble(body, r.value.1)))
  }

  lemma {:induction false} AssembleSnoc(body: seq<(string, Option<RustType>)>, key: string, payload: Option<RustType>,
                                        rest: Members)
    ensures Assemble(body + [(key, payload)], rest) == Assemble(body, Member(key, payload, rest))
    decreases |body|
  {
    var all := body + [(key, payload)];
    if body == [] {
      assert all[1..] == [];
    } else {
      assert all[1..] == body[1..] + [(key, payload)];
      AssembleSnoc(body[1..], key, payload, rest);
    }
  }

  lemma {:induction false} PrependSnoc(body: seq<(string, Option<RustType>)>, key: string, payload: Option<RustType>,
                                       r: Result<(Output, Members), Error>)
    ensures Prepend(body, PrependMember(key, payload, r)) == Prepend(body + [(key, payload)], r)
  {
    if r.Ok? {
      AssembleSnoc(body, key, payload, r.value.1);
    }
  }
}
