/** The configuration records of src/polygon/utils/validators.py: their
    fields, their defaults and the field constraints pydantic enforces,
    stated as validity predicates and a validating constructor. */
module Validators {
  import opened Common

  /** An object id. `uuid4` generation is not modelled: ids are given. */
  type Uuid = nat

  /** `Dict[str, Any]`; the values are kept as text. */
  type Metadata = map<string, string>

  const MinNameLength: nat := 3
  const MaxNameLength: nat := 50

  /** BufferConfig: BaseDataConfig's id, name and metadata, plus capacity and
      init. Omitted keyword arguments take the declared defaults. */
  datatype BufferConfig = BufferConfig(
    id: Uuid,
    name: string,
    metadata: Metadata := map[],
    capacity: Option<int> := None,
    init: int := 0)

  /** PartConfig: BaseDataConfig's fields plus the ordered path of visited
      location ids. */
  datatype PartConfig = PartConfig(
    id: Uuid,
    name: string,
    metadata: Metadata := map[],
    path: seq<Uuid> := [])

  /** `name: str = Field(..., min_length=3, max_length=50)`. */
  predicate ValidName(name: string) {
    MinNameLength <= |name| <= MaxNameLength
  }

  /** `capacity: Optional[...] = Field(default=None, gt=0)`. */
  predicate ValidCapacity(capacity: Option<int>) {
    capacity.Some? ==> capacity.value > 0
  }

  /** `init: Optional[...] = Field(default=0, ge=0)`. */
  predicate ValidInit(init: int) {
    init >= 0
  }

  predicate ValidBufferConfig(c: BufferConfig) {
    ValidName(c.name) && ValidCapacity(c.capacity) && ValidInit(c.init)
  }

  predicate ValidPartConfig(c: PartConfig) {
    ValidName(c.name)
  }

  /** The names of the BufferConfig fields whose constraint fails, in
      declaration order, as pydantic collects every failing field. */
  function BufferConfigErrors(c: BufferConfig): (fields: seq<string>)
    ensures "name" in fields <==> !ValidName(c.name)
    ensures "capacity" in fields <==> !ValidCapacity(c.capacity)
    ensures "init" in fields <==> !ValidInit(c.init)
    ensures fields == [] <==> ValidBufferConfig(c)
  {
    (if ValidName(c.name) then [] else ["name"])
    + (if ValidCapacity(c.capacity) then [] else ["capacity"])
    + (if ValidInit(c.init) then [] else ["init"])
  }

  /** Constructing a BufferConfig: the record itself when every constraint
      holds, a validation error naming the failing fields otherwise. */
  function MakeBufferConfig(c: BufferConfig): (r: Result<BufferConfig>)
    ensures r.Ok? <==> ValidBufferConfig(c)
    ensures r.Ok? ==> r.value == c
    ensures r.Err? ==> r.error.ValidationError? && r.error.fields != []
  {
    var errors := BufferConfigErrors(c);
    if errors == [] then Ok(c) else Err(ValidationError(errors))
  }

  /** Constructing a PartConfig: only the name is constrained. */
  function MakePartConfig(c: PartConfig): (r: Result<PartConfig>)
    ensures r.Ok? <==> ValidPartConfig(c)
    ensures r.Ok? ==> r.value == c
    ensures r.Err? ==> r.error == ValidationError(["name"])
  {
    if ValidName(c.name) then Ok(c) else Err(ValidationError(["name"]))
  }

  /** A BufferConfig built from an id and a name alone is unbounded, starts
      empty, has no metadata, and is valid exactly when its name is. */
  lemma DefaultBufferConfig(id: Uuid, name: string)
    ensures BufferConfig(id, name).capacity == None
    ensures BufferConfig(id, name).init == 0
    ensures BufferConfig(id, name).metadata == map[]
    ensures MakeBufferConfig(BufferConfig(id, name)).Ok? <==> ValidName(name)
    ensures CapacityOf(BufferConfig(id, name).capacity) == Unbounded
  {
  }

  /** A PartConfig built from an id and a name alone has visited nowhere and
      has no metadata. */
  lemma DefaultPartConfig(id: Uuid, name: string)
    ensures PartConfig(id, name).path == []
    ensures PartConfig(id, name).metadata == map[]
    ensures MakePartConfig(PartConfig(id, name)).Ok? <==> ValidName(name)
  {
  }
}
