/**
 * The descriptor-to-Rust emitter as functions on values: what each declaration is and in which order it is
 * emitted. `Emitter.dfy` has the object that emits in place; the theorems are in `EmitterMeaning.dfy`.
 */
module EmitterSpec {
  import opened Wrappers
  import opened Schema
  import opened Text

  datatype Error =
    | InvalidIdentifier(text: string)
    | DuplicateIdentifier(text: string)
    | MissingReference(id: string)
    | UnsupportedSchema(schema: Type)

  // ---------------------------------------------------------------- descriptors

  datatype Operation = Operation(id: string, input: string, output: string, error: string, capability: string)
  datatype EventEntry = EventEntry(id: string, payload: string, capability: string)
  datatype Callback = Callback(id: string, request: string, response: string, capability: string)
  datatype Capability = Capability(id: string, dependencies: seq<string>)
  datatype TypeEntry = TypeEntry(id: string, schema: Type)

  /** The maps of a descriptor, listed in key order. */
  datatype Descriptor = Descriptor(
    id: string,
    types: seq<TypeEntry>,
    operations: seq<Operation>,
    events: seq<EventEntry>,
    callbacks: seq<Callback>,
    capabilities: seq<Capability>
  )

  // ---------------------------------------------------------------- emitted Rust

  datatype RustType =
    | RValue | RUnit | RBool | RI64 | RU64 | RF64 | RString | RBytes
    | ROption(item: RustType)
    | RVec(item: RustType)
    | RBTreeMap(item: RustType)
    | RArray(item: RustType, len: nat)
    | RName(name: string)

  /** Struct fields (always with a type) or enum variants (with or without a payload). */
  datatype Members = NoMember | Member(key: string, payload: Option<RustType>, rest: Members)

  datatype Decl =
    | InterfaceId(id: string)
    | Struct(name: string, fields: Members)
    | Enum(name: string, variants: Members)
    | CallableStruct(name: string, contract: string, input: RustType, output: RustType)
    | ObjectStruct(name: string, contract: string)
    | ContractImpl(name: string, id: string)
    | TypeSchemas(entries: seq<string>)
    | OperationStruct(name: string, id: string, capability: string, request: string, reply: string)
    | Alias(name: string, target: string)
    | IdConstant(name: string, id: string)
    | CapabilityStruct(name: string, id: string)

  /** The Rust item name a declaration introduces in the type namespace. */
  function DeclaredName(d: Decl): Option<string> {
    match d
    case Struct(name, _) => Some(name)
    case Enum(name, _) => Some(name)
    case CallableStruct(name, _, _, _) => Some(name)
    case ObjectStruct(name, _) => Some(name)
    case OperationStruct(name, _, _, _, _) => Some(name)
    case Alias(name, _) => Some(name)
    case CapabilityStruct(name, _) => Some(name)
    case _ => None
  }

  // ---------------------------------------------------------------- names

  predicate IdentifierStart(c: char) {
    IsLetter(c) || c == '_'
  }

  predicate IdentifierPart(c: char) {
    IsLetter(c) || IsDigit(c) || c == '_'
  }

  predicate IsIdentifier(value: string) {
    && value != ""
    && IdentifierStart(value[0])
    && (forall i :: 0 <= i < |value| ==> IdentifierPart(value[i]))
    && value != "self" && value != "Self" && value != "super" && value != "crate" && value != "_"
  }

  predicate IsSeparator(c: char) {
    c == '.' || c == '-' || c == '/' || c == ':' || c == '@'
  }

  /** The segments between separators, each with its first letter in upper case; none may be empty. */
  function Camel(text: string, segmentStart: bool): Option<string> {
    if text == "" then (if segmentStart then None else Some(""))
    else if IsSeparator(text[0]) then (if segmentStart then None else Camel(text[1..], true))
    else
      var rest := Camel(text[1..], false);
      if rest.None? then None
      else Some([if segmentStart then Upper(text[0]) else text[0]] + rest.value)
  }

  datatype Role = TypeRole | OperationRole | EventRole | RequestRole | ResponseRole | CapabilityRole

  function Suffix(role: Role): string {
    match role
    case TypeRole => "Type"
    case OperationRole => "Operation"
    case EventRole => "Event"
    case RequestRole => "CallbackRequest"
    case ResponseRole => "CallbackResponse"
    case CapabilityRole => "Capability"
  }

  function Symbol(id: string, role: Role): Result<string, Error> {
    var camel := Camel(id, true);
    if camel.None? then Err(InvalidIdentifier(id))
    else
      var name := camel.value + Suffix(role);
      if IsIdentifier(name) then Ok(name) else Err(InvalidIdentifier(name))
  }

  datatype Kind = Structural | CallableKind | ObjectKind

  function Prefix(kind: Kind): string {
    match kind
    case Structural => "Structural"
    case CallableKind => "Callable"
    case ObjectKind => "Object"
  }

  /** A name from the fresh-name counter. */
  function Generated(kind: Kind, n: nat): string {
    Prefix(kind) + Decimal(n)
  }

  // ---------------------------------------------------------------- emission

  datatype Output = Output(definitions: seq<Decl>, names: set<string>, next: nat)

  const EmptyOutput: Output := Output([], {}, 0)

  function Push(e: Output, d: Decl): Output {
    e.(definitions := e.definitions + [d])
  }

  function Reserve(e: Output, name: string): Result<Output, Error> {
    if name in e.names then Err(DuplicateIdentifier(name)) else Ok(e.(names := e.names + {name}))
  }

  /** An emitter step that yields a Rust type expression, or fails. */
  type Typed = Result<(Output, RustType), Error>

  function WrapType(r: Typed, wrap: RustType -> RustType): Typed {
    match r
    case Err(error) => Err(error)
    case Ok((e, ty)) => Ok((e, wrap(ty)))
  }

  function Nested(e: Output, schema: Type): Typed
    decreases schema, 1
  {
    match schema
    case Any => Ok((e, RValue))
    case Unit => Ok((e, RUnit))
    case Bool => Ok((e, RBool))
    case I64 => Ok((e, RI64))
    case U64 => Ok((e, RU64))
    case F64 => Ok((e, RF64))
    case String => Ok((e, RString))
    case Bytes => Ok((e, RBytes))
    case Optional(item) => WrapType(Nested(e, item), t => ROption(t))
    case List(item) => WrapType(Nested(e, item), t => RVec(t))
    case Map(item) => WrapType(Nested(e, item), t => RBTreeMap(t))
    case Array(item, len) => WrapType(Nested(e, item), t => RArray(t, len))
    case Table(_) => NestedDefine(e, schema)
    case Variant(_) => NestedDefine(e, schema)
    case Callable(contract, input, output) =>
      (match Nested(e, input)
       case Err(error) => Err(error)
       case Ok((e1, inputType)) =>
         match Nested(e1, output)
         case Err(error) => Err(error)
         case Ok((e2, outputType)) =>
           var name := Generated(CallableKind, e2.next);
           match Reserve(e2.(next := e2.next + 1), name)
           case Err(error) => Err(error)
           case Ok(e3) => Ok((Push(e3, CallableStruct(name, contract, inputType, outputType)), RName(name))))
    case Object(contract) =>
      (var name := Generated(ObjectKind, e.next);
       match Reserve(e.(next := e.next + 1), name)
       case Err(error) => Err(error)
       case Ok(e1) => Ok((Push(e1, ObjectStruct(name, contract)), RName(name))))
    case Never => Err(UnsupportedSchema(schema))
  }

  function NestedDefine(e: Output, schema: Type): Typed
    requires schema.Table? || schema.Variant?
    decreases schema, 0, 1
  {
    var name := Generated(Structural, e.next);
    match Define(e.(next := e.next + 1), name, schema)
    case Err(error) => Err(error)
    case Ok(e1) => Ok((e1, RName(name)))
  }

  /** The name is reserved before the members are emitted; the declaration itself comes after theirs. */
  function Define(e: Output, name: string, schema: Type): Result<Output, Error>
    decreases schema, 0, 0
  {
    match Reserve(e, name)
    case Err(error) => Err(error)
    case Ok(e1) =>
      match schema
      case Table(fields) =>
        (match EmitMembers(e1, fields, false)
         case Err(error) => Err(error)
         case Ok((e2, members)) => Ok(Push(e2, Struct(name, members))))
      case Variant(variants) =>
        (match EmitMembers(e1, variants, true)
         case Err(error) => Err(error)
         case Ok((e2, members)) => Ok(Push(e2, Enum(name, members))))
      case _ => Err(UnsupportedSchema(schema))
  }

  function EmitMembers(e: Output, fields: Fields, variant: bool): Result<(Output, Members), Error>
    decreases fields
  {
    match fields
    case End => Ok((e, NoMember))
    case Field(key, schema, rest) =>
      if !IsIdentifier(key) then Err(InvalidIdentifier(key))
      else if variant && schema.Unit? then PrependMember(key, None, EmitMembers(e, rest, variant))
      else
        match Nested(e, schema)
        case Err(error) => Err(error)
        case Ok((e1, ty)) => PrependMember(key, Some(ty), EmitMembers(e1, rest, variant))
  }

  function PrependMember(key: string, payload: Option<RustType>, r: Result<(Output, Members), Error>)
    : Result<(Output, Members), Error>
  {
    match r
    case Err(error) => Err(error)
    case Ok((e, members)) => Ok((e, Member(key, payload, members)))
  }

  // ---------------------------------------------------------------- the whole descriptor

  predicate HasType(d: Descriptor, id: string) {
    exists t | t in d.types :: t.id == id
  }

  predicate HasCapability(d: Descriptor, id: string) {
    exists c | c in d.capabilities :: c.id == id
  }

  function DefineType(e: Output, t: TypeEntry): Result<Output, Error> {
    match Symbol(t.id, TypeRole)
    case Err(error) => Err(error)
    case Ok(name) =>
      match Define(e, name, t.schema)
      case Err(error) => Err(error)
      case Ok(e1) => Ok(Push(e1, ContractImpl(name, t.id)))
  }

  function DefineTypes(e: Output, types: seq<TypeEntry>): Result<Output, Error>
    decreases |types|
  {
    if types == [] then Ok(e)
    else
      match DefineType(e, types[0])
      case Err(error) => Err(error)
      case Ok(e1) => DefineTypes(e1, types[1..])
  }

  /** A reserved item that stands for an id: an operation marker or a capability marker. */
  function EmitOperation(e: Output, d: Descriptor, o: Operation): Result<Output, Error> {
    if !HasType(d, o.input) then Err(MissingReference(o.input))
    else if !HasType(d, o.output) then Err(MissingReference(o.output))
    else if !HasType(d, o.error) then Err(MissingReference(o.error))
    else if !HasCapability(d, o.capability) then Err(MissingReference(o.capability))
    else
      match Symbol(o.id, OperationRole)
      case Err(error) => Err(error)
      case Ok(name) =>
        match Reserve(e, name)
        case Err(error) => Err(error)
        case Ok(e1) =>
          match Symbol(o.input, TypeRole)
          case Err(error) => Err(error)
          case Ok(input) =>
            match Symbol(o.output, TypeRole)
            case Err(error) => Err(error)
            case Ok(output) => Ok(Push(e1, OperationStruct(name, o.id, o.capability, input, output)))
  }

  function EmitOperations(e: Output, d: Descriptor, operations: seq<Operation>): Result<Output, Error>
    decreases |operations|
  {
    if operations == [] then Ok(e)
    else
      match EmitOperation(e, d, operations[0])
      case Err(error) => Err(error)
      case Ok(e1) => EmitOperations(e1, d, operations[1..])
  }

  function UpperAll(s: string): string {
    if s == "" then "" else [Upper(s[0])] + UpperAll(s[1..])
  }

  /** `role`: an alias named for the id, and a constant named by the upper-cased alias, which is not reserved. */
  function EmitRole(e: Output, id: string, role: Role, payload: string): Result<Output, Error> {
    match Symbol(id, role)
    case Err(error) => Err(error)
    case Ok(name) =>
      match Reserve(e, name)
      case Err(error) => Err(error)
      case Ok(e1) =>
        match Symbol(payload, TypeRole)
        case Err(error) => Err(error)
        case Ok(target) => Ok(Push(Push(e1, Alias(name, target)), IdConstant(UpperAll(name), id)))
  }

  function EmitEvent(e: Output, d: Descriptor, event: EventEntry): Result<Output, Error> {
    if !HasType(d, event.payload) then Err(MissingReference(event.payload))
    else if !HasCapability(d, event.capability) then Err(MissingReference(event.capability))
    else EmitRole(e, event.id, EventRole, event.payload)
  }

  function EmitEvents(e: Output, d: Descriptor, events: seq<EventEntry>): Result<Output, Error>
    decreases |events|
  {
    if events == [] then Ok(e)
    else
      match EmitEvent(e, d, events[0])
      case Err(error) => Err(error)
      case Ok(e1) => EmitEvents(e1, d, events[1..])
  }

  function EmitCallback(e: Output, d: Descriptor, c: Callback): Result<Output, Error> {
    if !HasType(d, c.request) then Err(MissingReference(c.request))
    else if !HasType(d, c.response) then Err(MissingReference(c.response))
    else if !HasCapability(d, c.capability) then Err(MissingReference(c.capability))
    else
      match EmitRole(e, c.id, RequestRole, c.request)
      case Err(error) => Err(error)
      case Ok(e1) => EmitRole(e1, c.id, ResponseRole, c.response)
  }

  function EmitCallbacks(e: Output, d: Descriptor, callbacks: seq<Callback>): Result<Output, Error>
    decreases |callbacks|
  {
    if callbacks == [] then Ok(e)
    else
      match EmitCallback(e, d, callbacks[0])
      case Err(error) => Err(error)
      case Ok(e1) => EmitCallbacks(e1, d, callbacks[1..])
  }

  function FirstMissing(d: Descriptor, ids: seq<string>): Option<string> {
    if ids == [] then None
    else if !HasCapability(d, ids[0]) then Some(ids[0])
    else FirstMissing(d, ids[1..])
  }

  function EmitCapability(e: Output, d: Descriptor, c: Capability): Result<Output, Error> {
    var missing := FirstMissing(d, c.dependencies);
    if missing.Some? then Err(MissingReference(missing.value))
    else
      match Symbol(c.id, CapabilityRole)
      case Err(error) => Err(error)
      case Ok(name) =>
        match Reserve(e, name)
        case Err(error) => Err(error)
        case Ok(e1) => Ok(Push(e1, CapabilityStruct(name, c.id)))
  }

  function EmitCapabilities(e: Output, d: Descriptor, capabilities: seq<Capability>): Result<Output, Error>
    decreases |capabilities|
  {
    if capabilities == [] then Ok(e)
    else
      match EmitCapability(e, d, capabilities[0])
      case Err(error) => Err(error)
      case Ok(e1) => EmitCapabilities(e1, d, capabilities[1..])
  }

  function TypeNames(types: seq<TypeEntry>): Result<seq<string>, Error> {
    if types == [] then Ok([])
    else
      match Symbol(types[0].id, TypeRole)
      case Err(error) => Err(error)
      case Ok(name) =>
        match TypeNames(types[1..])
        case Err(error) => Err(error)
        case Ok(names) => Ok([name] + names)
  }

  /** The declarations up to and with `type_schemas`. */
  function EmitTypes(d: Descriptor): Result<Output, Error> {
    match DefineTypes(Push(EmptyOutput, InterfaceId(d.id)), d.types)
    case Err(error) => Err(error)
    case Ok(e) =>
      match TypeNames(d.types)
      case Err(error) => Err(error)
      case Ok(names) => Ok(Push(e, TypeSchemas(names)))
  }

  function EmitCallbacksOn(e: Output, d: Descriptor): Result<Output, Error> {
    match EmitCallbacks(e, d, d.callbacks)
    case Err(error) => Err(error)
    case Ok(e1) => EmitCapabilities(e1, d, d.capabilities)
  }

  function EmitEventsOn(e: Output, d: Descriptor): Result<Output, Error> {
    match EmitEvents(e, d, d.events)
    case Err(error) => Err(error)
    case Ok(e1) => EmitCallbacksOn(e1, d)
  }

  /** Everything after `type_schemas`: operations, events, callbacks, capabilities. */
  function EmitItems(e: Output, d: Descriptor): Result<Output, Error> {
    match EmitOperations(e, d, d.operations)
    case Err(error) => Err(error)
    case Ok(e1) => EmitEventsOn(e1, d)
  }

  function RustOutput(d: Descriptor): Result<Output, Error> {
    match EmitTypes(d)
    case Err(error) => Err(error)
    case Ok(e) => EmitItems(e, d)
  }

  /** `rust`: the whole output, or the first error. */
  function Rust(d: Descriptor): Result<seq<Decl>, Error> {
    match RustOutput(d)
    case Err(error) => Err(error)
    case Ok(e) => Ok(e.definitions)
  }
}
