/**
 * The node-type catalog (`NodeSelectionTable` in src/core_models/dannn.rs):
 * a mutable map from node-type id to the descriptor of that operator kind,
 * with bulk enable/disable operations for five fixed id groups and
 * single-id enable/disable operations.
 */
module NodeSelection {
  import opened Wrappers

  /** One catalog entry (`NodeSelectionDescriptor`). An absent bound is `None`. */
  datatype Descriptor = Descriptor(
    minimumConnections: Option<nat>,
    maximumConnections: Option<nat>,
    description: string,
    name: string,
    prevalence: real)

  /** The five id groups that have their own `enable_*` / `disable_*` pair. */
  datatype Category = Logic | SimpleArithmetic | AdvancedArithmetic | StringModification | Special

  /** The smallest id of a group. */
  function FirstId(c: Category): nat
  {
    match c
    case Logic => 101
    case SimpleArithmetic => 201
    case AdvancedArithmetic => 205
    case StringModification => 301
    case Special => 401
  }

  /** The largest id of a group. */
  function LastId(c: Category): nat
  {
    match c
    case Logic => 117
    case SimpleArithmetic => 204
    case AdvancedArithmetic => 224
    case StringModification => 304
    case Special => 401
  }

  /** Whether `id` lies in the id range of group `c`. */
  predicate InCategory(c: Category, id: nat)
  {
    FirstId(c) <= id <= LastId(c)
  }

  /** The ids that `enable_<category>` inserts and `disable_<category>` removes. */
  function CategoryIds(c: Category): set<nat>
  {
    set id: nat | id <= LastId(c) && InCategory(c, id)
  }

  /** Every id that has a canonical descriptor. */
  function CanonicalIds(): set<nat>
  {
    CategoryIds(Logic) + CategoryIds(SimpleArithmetic) + CategoryIds(AdvancedArithmetic)
      + CategoryIds(StringModification) + CategoryIds(Special)
  }

  /** Whether `id` has a canonical descriptor, stated by the five id ranges. */
  predicate IsCanonicalId(id: nat)
  {
    101 <= id <= 117 || 201 <= id <= 224 || 301 <= id <= 304 || id == 401
  }

  // The literal descriptors that the `enable_<category>` blocks insert, one
  // column per descriptor field; every one of them has prevalence 1.0.

  /** Column `minimum_connections` of the canonical descriptors (consulted only for canonical ids). */
  function MinimumConnections(id: nat): Option<nat>
  {
    match id
    // enable_logic
    case 101 => Some(1)
    case 102 => Some(1)
    case 103 => Some(1)
    case 104 => Some(1)
    case 105 => Some(1)
    case 106 => Some(1)
    case 107 => Some(1)
    case 108 => Some(3)
    case 109 => Some(2)
    case 110 => Some(3)
    case 111 => Some(2)
    case 112 => Some(3)
    case 113 => Some(1)
    case 114 => Some(2)
    case 115 => Some(3)
    case 116 => Some(2)
    case 117 => Some(3)
    // enable_simple_arithmetic
    case 201 => Some(1)
    case 202 => Some(1)
    case 203 => Some(1)
    case 204 => Some(1)
    // enable_advanced_arithmetic
    case 205 => Some(2)
    case 206 => Some(2)
    case 207 => Some(1)
    case 208 => Some(1)
    case 209 => Some(1)
    case 210 => Some(1)
    case 211 => Some(1)
    case 212 => Some(1)
    case 213 => Some(1)
    case 214 => Some(1)
    case 215 => Some(1)
    case 216 => Some(1)
    case 217 => Some(1)
    case 218 => Some(2)
    case 219 => Some(2)
    case 220 => Some(2)
    case 221 => Some(1)
    case 222 => Some(1)
    case 223 => Some(1)
    case 224 => Some(1)
    // enable_string_modification
    case 301 => Some(2)
    case 302 => Some(3)
    case 303 => Some(2)
    case 304 => Some(1)
    // enable_special_functions
    case 401 => Some(2)
    case _ => None
  }

  /** Column `maximum_connections` of the canonical descriptors; `None` is unbounded. */
  function MaximumConnections(id: nat): Option<nat>
  {
    match id
    // enable_logic
    case 101 => None
    case 102 => None
    case 103 => None
    case 104 => Some(1)
    case 105 => None
    case 106 => None
    case 107 => None
    case 108 => Some(3)
    case 109 => Some(2)
    case 110 => Some(3)
    case 111 => Some(2)
    case 112 => Some(3)
    case 113 => Some(1)
    case 114 => Some(2)
    case 115 => Some(3)
    case 116 => Some(2)
    case 117 => Some(3)
    // enable_simple_arithmetic
    case 201 => None
    case 202 => None
    case 203 => None
    case 204 => None
    // enable_advanced_arithmetic
    case 205 => Some(2)
    case 206 => Some(2)
    case 207 => Some(1)
    case 208 => Some(1)
    case 209 => Some(1)
    case 210 => Some(1)
    case 211 => Some(1)
    case 212 => Some(1)
    case 213 => Some(1)
    case 214 => Some(1)
    case 215 => Some(1)
    case 216 => Some(1)
    case 217 => Some(1)
    case 218 => Some(2)
    case 219 => Some(2)
    case 220 => Some(2)
    case 221 => Some(1)
    case 222 => Some(1)
    case 223 => Some(1)
    case 224 => Some(1)
    // enable_string_modification
    case 301 => Some(2)
    case 302 => Some(3)
    case 303 => Some(2)
    case 304 => None
    // enable_special_functions
    case 401 => Some(2)
    case _ => None
  }

  /** Column `description` of the canonical descriptors. */
  function Description(id: nat): string
  {
    match id
    // enable_logic
    case 101 => "performs an AND comparison of all inputs, omits least input during comparison"
    case 102 => "performs an OR comparison of all inputs, omits least and greatest input during comparison"
    case 103 => "performs an NOR comparison of all inputs, omits least and greatest input during comparison"
    case 104 => "performs a NOT operation on one input, returns inverse of number to follow mapped truth value"
    case 105 => "Performs a NAND comparison of all inputs"
    case 106 => "Performs an XOR comparison of all inputs"
    case 107 => "tests if all inputs are equal, returns the greatest input if true, and the least input if false"
    case 108 => "tests if first and second inputs are equal, returns the 3rd input if true, and 0 if false"
    case 109 => "tests if first value is greater than second value, returns mapped truth value"
    case 110 => "If the first input is greater than the second input, the 3rd input is returned"
    case 111 => "tests if first value is less than second value, returns mapped truth value"
    case 112 => "tests if first value is less than second value, returns 3rd value if true, returns 0 if false"
    case 113 => "Passes the input value to the output value"
    case 114 => "tests if first value is greater than or equal to second value, returns mapped truth value"
    case 115 => "Tests if first value is greater than or equal to second value, returns 3rd value if true, returns 0 if False"
    case 116 => "tests if first value is less than or equal to second value, returns mapped truth value"
    case 117 => "tests if first value is less than or equal to second value, returns 3rd value if true, returns 0 if false"
    // enable_simple_arithmetic
    case 201 => "Adds all given numbers together"
    case 202 => "Subtracts all numbers from the first number"
    case 203 => "Multiplies all numbers"
    case 204 => "Divides all numbers from the first number"
    // enable_advanced_arithmetic
    case 205 => "Takes the n root of the first input, n being the second input"
    case 206 => "Calculates the first input to the second inputs power"
    case 207 => "Calculates the sine of the first input"
    case 208 => "Calculates the cosine of the first input"
    case 209 => "Calculates the tangent of the first input"
    case 210 => "Calculates the inverse sine of the first input"
    case 211 => "Calculates the inverse cosine of the first input"
    case 212 => "Calculates the inverse tangent of the first input"
    case 213 => "Returns the absolute value of the first input"
    case 214 => "Returns the rounded ceiling of the first input"
    case 215 => "Returns the rounded floor of the first input"
    case 216 => "Returns the rounded first input"
    case 217 => "Returns the inverted first input"
    case 218 => "Limits the first input to be no greater than the second input"
    case 219 => "Limits the first input to be no less than the second input"
    case 220 => "Returns the modulus of the first and second input"
    case 221 => "Returns the inverse absolute value of the first input"
    case 222 => "Returns the cosecant of the first input"
    case 223 => "Returns the secant of the first input"
    case 224 => "Returns the cotangent of the first input"
    // enable_string_modification
    case 301 => "Removes instances of second value from first value"
    case 302 => "Replace instances of 2nd value from first value with 3rd value"
    case 303 => "Count amount of instances of 2nd Value inside 1st value"
    case 304 => "Concatenate all inputs"
    // enable_special_functions
    case 401 => "Generate a random integer between two values"
    case _ => ""
  }

  /** Column `name` of the canonical descriptors. */
  function Name(id: nat): string
  {
    match id
    // enable_logic
    case 101 => "AND Gate"
    case 102 => "OR Gate"
    case 103 => "NOR Gate"
    case 104 => "NOT Gate"
    case 105 => "NAND Gate"
    case 106 => "XOR Gate"
    case 107 => "Equality Test"
    case 108 => "Equality Test"
    case 109 => "Greater Than"
    case 110 => "Greater Than Gate"
    case 111 => "Less Than"
    case 112 => "Less Than Gate"
    case 113 => "Passthrough"
    case 114 => "Greater Than or Equal to"
    case 115 => "Greater Than or Equal to Gate"
    case 116 => "Less Than Or Equal to"
    case 117 => "Less Than or Equal to Gate"
    // enable_simple_arithmetic
    case 201 => "Add"
    case 202 => "Subtract"
    case 203 => "Multiply"
    case 204 => "Divide"
    // enable_advanced_arithmetic
    case 205 => "Root"
    case 206 => "Exponent"
    case 207 => "Sin"
    case 208 => "Cos"
    case 209 => "Tan"
    case 210 => "Arcsin"
    case 211 => "Arccos"
    case 212 => "Arctan"
    case 213 => "Abs"
    case 214 => "Ceiling"
    case 215 => "Floor"
    case 216 => "Round"
    case 217 => "Invert sign"
    case 218 => "Maximum Limiter"
    case 219 => "Minimum Limiter"
    case 220 => "Modulus"
    case 221 => "Make Negative"
    case 222 => "Cosecant"
    case 223 => "Secant"
    case 224 => "Cotangent"
    // enable_string_modification
    case 301 => "String Remove"
    case 302 => "String Replace"
    case 303 => "String Count"
    case 304 => "Concatenate"
    // enable_special_functions
    case 401 => "Random Number"
    case _ => ""
  }

  /** The canonical descriptor of a canonical id. */
  function Canonical(id: nat): Descriptor
    requires id in CanonicalIds()
  {
    Descriptor(MinimumConnections(id), MaximumConnections(id), Description(id), Name(id), 1.0)
  }

  /** The descriptors that `enable_<category>` inserts. */
  function CategoryTable(c: Category): map<nat, Descriptor>
  {
    map id | id in CategoryIds(c) :: Canonical(id)
  }

  /**
   * The canonical table that `enable_by_id` copies from. The source builds it
   * by running `enable_all` on an empty table; `EnableAllFromEmptyIsCanonical`
   * shows that this yields exactly this map.
   */
  function CanonicalTable(): map<nat, Descriptor>
  {
    map id | id in CanonicalIds() :: Canonical(id)
  }

  /** The connection bounds of a descriptor are ordered when both are present. */
  predicate BoundsOrdered(d: Descriptor)
  {
    d.minimumConnections.Some? && d.maximumConnections.Some? ==>
      d.minimumConnections.value <= d.maximumConnections.value
  }

  /** A live table only ever holds canonical entries, unaltered. */
  ghost predicate IsLiveTable(m: map<nat, Descriptor>)
  {
    forall id :: id in m ==> id in CanonicalTable() && m[id] == CanonicalTable()[id]
  }

  // The table transitions, as functions of the table before the call.

  /** The effect of `enable_<category>`. */
  function WithCategory(m: map<nat, Descriptor>, c: Category): map<nat, Descriptor>
  {
    m + CategoryTable(c)
  }

  /** The effect of `disable_<category>`. */
  function WithoutCategory(m: map<nat, Descriptor>, c: Category): map<nat, Descriptor>
  {
    m - CategoryIds(c)
  }

  /** The effect of `enable_all`: the five `enable_<category>` calls in order. */
  function WithAll(m: map<nat, Descriptor>): map<nat, Descriptor>
  {
    WithCategory(WithCategory(WithCategory(WithCategory(WithCategory(
      m, Logic), SimpleArithmetic), AdvancedArithmetic), StringModification), Special)
  }

  /** The effect of `disable_all`: the five `disable_<category>` calls in order. */
  function WithoutAll(m: map<nat, Descriptor>): map<nat, Descriptor>
  {
    WithoutCategory(WithoutCategory(WithoutCategory(WithoutCategory(WithoutCategory(
      m, Logic), SimpleArithmetic), AdvancedArithmetic), StringModification), Special)
  }

  /** The effect of `enable_by_id`, for an id that has a canonical descriptor. */
  function WithId(m: map<nat, Descriptor>, id: nat): map<nat, Descriptor>
    requires IsCanonicalId(id)
  {
    CanonicalIdsByRange(id);
    CanonicalKeys();
    m[id := CanonicalTable()[id]]
  }

  /** The effect of `disable_by_id`. */
  function WithoutId(m: map<nat, Descriptor>, id: nat): map<nat, Descriptor>
  {
    m - {id}
  }

  // Facts about the canonical data.

  /** Each group is exactly its id range. */
  lemma CategoryRanges(id: nat)
    ensures id in CategoryIds(Logic) <==> 101 <= id <= 117
    ensures id in CategoryIds(SimpleArithmetic) <==> 201 <= id <= 204
    ensures id in CategoryIds(AdvancedArithmetic) <==> 205 <= id <= 224
    ensures id in CategoryIds(StringModification) <==> 301 <= id <= 304
    ensures id in CategoryIds(Special) <==> id == 401
  {
    assert id in CategoryIds(Logic) <==> InCategory(Logic, id);
    assert id in CategoryIds(SimpleArithmetic) <==> InCategory(SimpleArithmetic, id);
    assert id in CategoryIds(AdvancedArithmetic) <==> InCategory(AdvancedArithmetic, id);
    assert id in CategoryIds(StringModification) <==> InCategory(StringModification, id);
    assert id in CategoryIds(Special) <==> InCategory(Special, id);
  }

  /** The canonical ids are exactly the ids in the five ranges. */
  lemma CanonicalIdsByRange(id: nat)
    ensures id in CanonicalIds() <==> IsCanonicalId(id)
  {
    CategoryRanges(id);
  }

  /** Distinct groups share no id. */
  lemma CategoriesDisjoint(c: Category, d: Category)
    requires c != d
    ensures CategoryIds(c) !! CategoryIds(d)
  {
  }

  /** Each category table defines exactly the ids of its group. */
  lemma CategoryTableKeys(c: Category)
    ensures CategoryTable(c).Keys == CategoryIds(c)
  {
  }

  /** The canonical table agrees with each category table on that group's ids. */
  lemma CanonicalCoversCategory(c: Category)
    ensures forall id :: id in CategoryIds(c) ==>
      id in CanonicalTable() && CanonicalTable()[id] == CategoryTable(c)[id]
  {
  }

  /** The canonical table defines exactly the canonical ids. */
  lemma CanonicalKeys()
    ensures CanonicalTable().Keys == CanonicalIds()
  {
  }

  /** Every canonical descriptor has ordered bounds, at least one input and prevalence 1. */
  lemma CanonicalDescriptorWellFormed(id: nat)
    requires id in CanonicalTable()
    ensures BoundsOrdered(CanonicalTable()[id])
    ensures CanonicalTable()[id].minimumConnections.Some?
    ensures CanonicalTable()[id].minimumConnections.value >= 1
    ensures CanonicalTable()[id].prevalence == 1.0
  {
    CanonicalKeys();
    CategoryRanges(id);
    ColumnsWellFormed(id);
  }

  /** The bound columns, on the canonical id ranges. */
  lemma ColumnsWellFormed(id: nat)
    requires IsCanonicalId(id)
    ensures MinimumConnections(id).Some? && MinimumConnections(id).value >= 1
    ensures MaximumConnections(id).Some? ==> MinimumConnections(id).value <= MaximumConnections(id).value
  {
  }

  // Facts about the table transitions.

  /** After `enable_<category>` every id of the group holds its canonical descriptor; nothing else changes. */
  lemma WithCategoryEffect(m: map<nat, Descriptor>, c: Category)
    ensures forall id :: id in CategoryIds(c) ==>
      id in WithCategory(m, c) && WithCategory(m, c)[id] == CanonicalTable()[id]
    ensures forall id :: id !in CategoryIds(c) ==>
      (id in WithCategory(m, c) <==> id in m) && (id in m ==> WithCategory(m, c)[id] == m[id])
  {
  }

  /** Re-enabling a group is idempotent. */
  lemma WithCategoryIdempotent(m: map<nat, Descriptor>, c: Category)
    ensures WithCategory(WithCategory(m, c), c) == WithCategory(m, c)
  {
  }

  /** After `disable_<category>` no id of the group is a key; nothing else changes. */
  lemma WithoutCategoryEffect(m: map<nat, Descriptor>, c: Category)
    ensures forall id :: id in CategoryIds(c) ==> id !in WithoutCategory(m, c)
    ensures forall id :: id !in CategoryIds(c) ==>
      (id in WithoutCategory(m, c) <==> id in m) && (id in m ==> WithoutCategory(m, c)[id] == m[id])
  {
  }

  /** Enabling then disabling a group is the same as disabling it; from a table without the group it is no change. */
  lemma EnableThenDisable(m: map<nat, Descriptor>, c: Category)
    ensures WithoutCategory(WithCategory(m, c), c) == WithoutCategory(m, c)
    ensures m.Keys !! CategoryIds(c) ==> WithoutCategory(WithCategory(m, c), c) == m
  {
  }

  /** Disabling then enabling a group is the same as enabling it. */
  lemma DisableThenEnable(m: map<nat, Descriptor>, c: Category)
    ensures WithCategory(WithoutCategory(m, c), c) == WithCategory(m, c)
  {
  }

  /** `WithCategory` at one id. */
  lemma WithCategoryAt(m: map<nat, Descriptor>, c: Category, id: nat)
    ensures id in WithCategory(m, c) <==> id in m || id in CategoryIds(c)
    ensures id in CategoryIds(c) ==> id in CanonicalTable() && WithCategory(m, c)[id] == CanonicalTable()[id]
    ensures id !in CategoryIds(c) && id in m ==> WithCategory(m, c)[id] == m[id]
  {
  }

  /** Every entry of `a` is also an entry of `t`. */
  predicate AgreesWith(a: map<nat, Descriptor>, t: map<nat, Descriptor>)
  {
    forall id :: id in a ==> id in t && t[id] == a[id]
  }

  lemma UnionAgrees(u: map<nat, Descriptor>, a: map<nat, Descriptor>, t: map<nat, Descriptor>)
    requires AgreesWith(u, t) && AgreesWith(a, t)
    ensures AgreesWith(u + a, t)
  {
  }

  lemma AgreeingWithSameKeys(u: map<nat, Descriptor>, t: map<nat, Descriptor>)
    requires AgreesWith(u, t) && u.Keys == t.Keys
    ensures u == t
  {
  }

  lemma UnionAssociative(m: map<nat, Descriptor>, s: map<nat, Descriptor>, a: map<nat, Descriptor>)
    ensures m + s + a == m + (s + a)
  {
  }

  /**
   * Overlaying five maps in turn is overlaying one map `t`, when `t` has
   * exactly their keys and agrees with each of them.
   */
  lemma OverlayOfParts(m: map<nat, Descriptor>, a1: map<nat, Descriptor>, a2: map<nat, Descriptor>,
                       a3: map<nat, Descriptor>, a4: map<nat, Descriptor>, a5: map<nat, Descriptor>,
                       t: map<nat, Descriptor>)
    requires t.Keys == a1.Keys + a2.Keys + a3.Keys + a4.Keys + a5.Keys
    requires AgreesWith(a1, t) && AgreesWith(a2, t) && AgreesWith(a3, t)
    requires AgreesWith(a4, t) && AgreesWith(a5, t)
    ensures m + a1 + a2 + a3 + a4 + a5 == m + t
  {
    UnionAgrees(a1, a2, t);
    UnionAgrees(a1 + a2, a3, t);
    UnionAgrees(a1 + a2 + a3, a4, t);
    UnionAgrees(a1 + a2 + a3 + a4, a5, t);
    AgreeingWithSameKeys(a1 + a2 + a3 + a4 + a5, t);
    UnionAssociative(m, a1, a2);
    UnionAssociative(m, a1 + a2, a3);
    UnionAssociative(m, a1 + a2 + a3, a4);
    UnionAssociative(m, a1 + a2 + a3 + a4, a5);
  }

  /** `enable_all` overwrites every canonical id with its canonical descriptor and keeps every other entry. */
  lemma WithAllIsCanonicalOverlay(m: map<nat, Descriptor>)
    ensures WithAll(m) == m + CanonicalTable()
  {
    CategoryTableKeys(Logic);
    CategoryTableKeys(SimpleArithmetic);
    CategoryTableKeys(AdvancedArithmetic);
    CategoryTableKeys(StringModification);
    CategoryTableKeys(Special);
    CanonicalCoversCategory(Logic);
    CanonicalCoversCategory(SimpleArithmetic);
    CanonicalCoversCategory(AdvancedArithmetic);
    CanonicalCoversCategory(StringModification);
    CanonicalCoversCategory(Special);
    CanonicalKeys();
    OverlayOfParts(m, CategoryTable(Logic), CategoryTable(SimpleArithmetic), CategoryTable(AdvancedArithmetic),
                   CategoryTable(StringModification), CategoryTable(Special), CanonicalTable());
  }

  /** Overlaying a map on the empty map gives that map. */
  lemma OverlayOnEmpty(t: map<nat, Descriptor>)
    ensures map[] + t == t
  {
  }

  /** `enable_all` on an empty table yields the canonical table, which is how `enable_by_id` builds it. */
  lemma EnableAllFromEmptyIsCanonical()
    ensures WithAll(map[]) == CanonicalTable()
  {
    WithAllIsCanonicalOverlay(map[]);
    OverlayOnEmpty(CanonicalTable());
  }

  /** `disable_all` removes exactly the canonical ids, so it empties every live table. */
  lemma WithoutAllEmptiesLiveTable(m: map<nat, Descriptor>)
    ensures WithoutAll(m) == m - CanonicalIds()
    ensures IsLiveTable(m) ==> WithoutAll(m) == map[]
  {
    assert WithoutAll(m).Keys == (m - CanonicalIds()).Keys;
    if IsLiveTable(m) {
      assert (m - CanonicalIds()).Keys == {};
    }
  }

  /** `disable_by_id` removes only its id, and is a no-op when the id is absent. */
  lemma WithoutIdEffect(m: map<nat, Descriptor>, id: nat)
    ensures id !in WithoutId(m, id)
    ensures forall k :: k != id ==> (k in WithoutId(m, id) <==> k in m) && (k in m ==> WithoutId(m, id)[k] == m[k])
    ensures id !in m ==> WithoutId(m, id) == m
  {
  }

  /** Enabling one id of a group and then the whole group is the same as enabling the group. */
  lemma WithIdAbsorbedByCategory(m: map<nat, Descriptor>, c: Category, id: nat)
    requires InCategory(c, id)
    ensures WithCategory(WithId(m, id), c) == WithCategory(m, c)
  {
    assert id in CategoryIds(c);
  }

  // Every transition keeps a live table live: keys stay canonical ids and
  // entries stay canonical descriptors.

  lemma LiveWithCategory(m: map<nat, Descriptor>, c: Category)
    requires IsLiveTable(m)
    ensures IsLiveTable(WithCategory(m, c))
  {
    forall k | k in WithCategory(m, c)
      ensures k in CanonicalTable() && WithCategory(m, c)[k] == CanonicalTable()[k]
    {
      WithCategoryAt(m, c, k);
    }
  }

  lemma LiveWithoutCategory(m: map<nat, Descriptor>, c: Category)
    requires IsLiveTable(m)
    ensures IsLiveTable(WithoutCategory(m, c))
  {
  }

  lemma LiveWithAll(m: map<nat, Descriptor>)
    requires IsLiveTable(m)
    ensures IsLiveTable(WithAll(m))
  {
    WithAllIsCanonicalOverlay(m);
  }

  lemma LiveWithId(m: map<nat, Descriptor>, id: nat)
    requires IsLiveTable(m) && IsCanonicalId(id)
    ensures IsLiveTable(WithId(m, id))
  {
    CanonicalIdsByRange(id);
    CanonicalKeys();
  }

  lemma LiveWithoutId(m: map<nat, Descriptor>, id: nat)
    requires IsLiveTable(m)
    ensures IsLiveTable(WithoutId(m, id))
  {
  }

  /** The live selection table (`NodeSelectionTable`). */
  class NodeSelectionTable {
    var descriptors: map<nat, Descriptor>

    ghost predicate Valid()
      reads this
    {
      IsLiveTable(descriptors)
    }

    /** `new`: an empty table. */
    constructor ()
      ensures Valid() && descriptors == map[]
    {
      descriptors := map[];
    }

    method EnableLogic()
      requires Valid()
      modifies this
      ensures Valid() && descriptors == WithCategory(old(descriptors), Logic)
    {
      LiveWithCategory(descriptors, Logic);
      descriptors := descriptors + CategoryTable(Logic);
    }

    method DisableLogic()
      requires Valid()
      modifies this
      ensures Valid() && descriptors == WithoutCategory(old(descriptors), Logic)
    {
      LiveWithoutCategory(descriptors, Logic);
      descriptors := descriptors - CategoryIds(Logic);
    }

    method EnableSimpleArithmetic()
      requires Valid()
      modifies this
      ensures Valid() && descriptors == WithCategory(old(descriptors), SimpleArithmetic)
    {
      LiveWithCategory(descriptors, SimpleArithmetic);
      descriptors := descriptors + CategoryTable(SimpleArithmetic);
    }

    method DisableSimpleArithmetic()
      requires Valid()
      modifies this
      ensures Valid() && descriptors == WithoutCategory(old(descriptors), SimpleArithmetic)
    {
      LiveWithoutCategory(descriptors, SimpleArithmetic);
      descriptors := descriptors - CategoryIds(SimpleArithmetic);
    }

    method EnableAdvancedArithmetic()
      requires Valid()
      modifies this
      ensures Valid() && descriptors == WithCategory(old(descriptors), AdvancedArithmetic)
    {
      LiveWithCategory(descriptors, AdvancedArithmetic);
      descriptors := descriptors + CategoryTable(AdvancedArithmetic);
    }

    method DisableAdvancedArithmetic()
      requires Valid()
      modifies this
      ensures Valid() && descriptors == WithoutCategory(old(descriptors), AdvancedArithmetic)
    {
      LiveWithoutCategory(descriptors, AdvancedArithmetic);
      descriptors := descriptors - CategoryIds(AdvancedArithmetic);
    }

    method EnableStringModification()
      requires Valid()
      modifies this
      ensures Valid() && descriptors == WithCategory(old(descriptors), StringModification)
    {
      LiveWithCategory(descriptors, StringModification);
      descriptors := descriptors + CategoryTable(StringModification);
    }

    method DisableStringModification()
      requires Valid()
      modifies this
      ensures Valid() && descriptors == WithoutCategory(old(descriptors), StringModification)
    {
      LiveWithoutCategory(descriptors, StringModification);
      descriptors := descriptors - CategoryIds(StringModification);
    }

    method EnableSpecialFunctions()
      requires Valid()
      modifies this
      ensures Valid() && descriptors == WithCategory(old(descriptors), Special)
    {
      LiveWithCategory(descriptors, Special);
      descriptors := descriptors + CategoryTable(Special);
    }

    method DisableSpecialFunctions()
      requires Valid()
      modifies this
      ensures Valid() && descriptors == WithoutCategory(old(descriptors), Special)
    {
      LiveWithoutCategory(descriptors, Special);
      descriptors := descriptors - CategoryIds(Special);
    }

    /** `enable_all`: every canonical id now holds its canonical descriptor. */
    method EnableAll()
      requires Valid()
      modifies this
      ensures Valid() && descriptors == old(descriptors) + CanonicalTable()
    {
      EnableLogic();
      EnableSimpleArithmetic();
      EnableAdvancedArithmetic();
      EnableStringModification();
      EnableSpecialFunctions();
      WithAllIsCanonicalOverlay(old(descriptors));
    }

    /** `disable_all`: since the keys are always canonical ids, the table ends up empty. */
    method DisableAll()
      requires Valid()
      modifies this
      ensures Valid() && descriptors == map[]
    {
      DisableLogic();
      DisableSimpleArithmetic();
      DisableAdvancedArithmetic();
      DisableStringModification();
      DisableSpecialFunctions();
      WithoutAllEmptiesLiveTable(old(descriptors));
    }

    /**
     * `enable_by_id`: copies the canonical descriptor of `id` from a freshly
     * built template table. An id without a canonical descriptor makes the
     * source panic, hence the precondition.
     */
    method EnableById(id: nat)
      requires Valid() && IsCanonicalId(id)
      modifies this
      ensures Valid() && descriptors == WithId(old(descriptors), id)
    {
      CanonicalIdsByRange(id);
      var template := new NodeSelectionTable();
      template.EnableAll();
      CanonicalKeys();
      var descriptor := template.descriptors[id];
      LiveWithId(descriptors, id);
      descriptors := descriptors[id := descriptor];
    }

    /** `disable_by_id`: removes `id` if present. */
    method DisableById(id: nat)
      requires Valid()
      modifies this
      ensures Valid() && descriptors == WithoutId(old(descriptors), id)
      ensures id !in old(descriptors) ==> descriptors == old(descriptors)
    {
      LiveWithoutId(descriptors, id);
      descriptors := descriptors - {id};
    }
  }
}
