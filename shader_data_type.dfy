/** The `ShaderDataType` enum: a (byte size, component count) pair per
    vertex-attribute type.

    Python's `Enum` turns a member whose value equals an earlier member's value
    into an alias of that earlier member. `INT`..`INT4` are declared with the
    same tuples as `FLOAT`..`FLOAT4`, so at run time `ShaderDataType.INT` IS
    `ShaderDataType.FLOAT`. The model keeps the two apart: `Name` is what the
    enum body declares, `ShaderDataType` is what exists at run time, and
    `Lookup` resolves a declared name the way `Enum` does. */
module ShaderDataTypes {

  /** The identifiers declared in the enum body, in declaration order. */
  datatype Name =
    | None | Float | Float2 | Float3 | Float4 | Mat3 | Mat4
    | Int | Int2 | Int3 | Int4 | Bool

  /** The value tuple written beside a name: `NONE = None, None` has neither
      a size nor a count. */
  datatype Value = Missing | Sized(size: nat, count: nat)

  function Declared(n: Name): Value
  {
    match n
    case None => Missing
    case Float => Sized(4, 1)
    case Float2 => Sized(4 * 2, 2)
    case Float3 => Sized(4 * 3, 3)
    case Float4 => Sized(4 * 4, 4)
    case Mat3 => Sized(4 * 3 * 3, 3)
    case Mat4 => Sized(4 * 4 * 4, 4)
    case Int => Sized(4, 1)
    case Int2 => Sized(4 * 2, 2)
    case Int3 => Sized(4 * 3, 3)
    case Int4 => Sized(4 * 4, 4)
    case Bool => Sized(1, 1)
  }

  const DeclarationOrder: seq<Name> :=
    [None, Float, Float2, Float3, Float4, Mat3, Mat4, Int, Int2, Int3, Int4, Bool]

  /** The position of the first name in `order` that declares `v`. */
  function FirstWithValue(order: seq<Name>, v: Value): (k: nat)
    requires exists i :: 0 <= i < |order| && Declared(order[i]) == v
    ensures k < |order| && Declared(order[k]) == v
    ensures forall j :: 0 <= j < k ==> Declared(order[j]) != v
  {
    if Declared(order[0]) == v then 0
    else
      assert exists i :: 0 <= i < |order[1..]| && Declared(order[1..][i]) == v by {
        var i :| 0 <= i < |order| && Declared(order[i]) == v;
        assert i != 0 && Declared(order[1..][i - 1]) == v;
      }
      1 + FirstWithValue(order[1..], v)
  }

  /** Where `n` stands in the enum body. */
  function Position(n: Name): (i: nat)
    ensures i < |DeclarationOrder| && DeclarationOrder[i] == n
  {
    match n
    case None => 0
    case Float => 1
    case Float2 => 2
    case Float3 => 3
    case Float4 => 4
    case Mat3 => 5
    case Mat4 => 6
    case Int => 7
    case Int2 => 8
    case Int3 => 9
    case Int4 => 10
    case Bool => 11
  }

  /** `ShaderDataType.<n>` at run time: the first declared member whose value
      equals the value written beside `n`. */
  function Lookup(n: Name): (m: Name)
    ensures Declared(m) == Declared(n)
  {
    assert Declared(DeclarationOrder[Position(n)]) == Declared(n);
    DeclarationOrder[FirstWithValue(DeclarationOrder, Declared(n))]
  }

  /** `Lookup(n)` is the name at position `i` whenever `i` is the first
      position declaring `n`'s value. */
  lemma LookupIsFirst(n: Name, i: nat)
    requires i < |DeclarationOrder| && Declared(DeclarationOrder[i]) == Declared(n)
    requires forall j :: 0 <= j < i ==> Declared(DeclarationOrder[j]) != Declared(n)
    ensures Lookup(n) == DeclarationOrder[i]
  {
    var k := FirstWithValue(DeclarationOrder, Declared(n));
    assert !(k < i) && !(i < k);
  }

  lemma IntAliasesFloat(n: Name)
    requires n.Int? || n.Int2? || n.Int3? || n.Int4?
    ensures Lookup(n) == DeclarationOrder[Position(n) - 6]
  {
    match n
    case Int => LookupIsFirst(n, 1);
    case Int2 => LookupIsFirst(n, 2);
    case Int3 => LookupIsFirst(n, 3);
    case Int4 => LookupIsFirst(n, 4);
  }

  /** The members `INT`..`INT4` are aliases of `FLOAT`..`FLOAT4`. */
  lemma IntsAliasFloats()
    ensures Lookup(Int) == Float && Lookup(Int2) == Float2
    ensures Lookup(Int3) == Float3 && Lookup(Int4) == Float4
  {
    IntAliasesFloat(Int);
    IntAliasesFloat(Int2);
    IntAliasesFloat(Int3);
    IntAliasesFloat(Int4);
  }

  /** Every declared name other than `INT`..`INT4` is a member in its own
      right. */
  lemma OthersAreMembers(n: Name)
    requires !n.Int? && !n.Int2? && !n.Int3? && !n.Int4?
    ensures Lookup(n) == n
  {
    match n
    case None => LookupIsFirst(n, 0);
    case Float => LookupIsFirst(n, 1);
    case Float2 => LookupIsFirst(n, 2);
    case Float3 => LookupIsFirst(n, 3);
    case Float4 => LookupIsFirst(n, 4);
    case Mat3 => LookupIsFirst(n, 5);
    case Mat4 => LookupIsFirst(n, 6);
    case Bool => LookupIsFirst(n, 11);
  }

  /** The declared names that are members in their own right. */
  predicate IsMember(n: Name)
  {
    !n.Int? && !n.Int2? && !n.Int3? && !n.Int4?
  }

  /** A member of the enum as it exists at run time. */
  type ShaderDataType = n: Name | IsMember(n) witness Float

  /** `IsMember` is exactly the set of names that `Lookup` leaves alone, and
      every name resolves to a member. */
  lemma MembersAreFixpoints(n: Name)
    ensures IsMember(n) <==> Lookup(n) == n
    ensures IsMember(Lookup(n))
  {
    if IsMember(n) {
      OthersAreMembers(n);
    } else {
      IntsAliasFloats();
    }
  }

  /** `ShaderDataType.<n>` as a table: the member each declared name denotes
      at run time. */
  function Member(n: Name): ShaderDataType
  {
    match n
    case Int => Float
    case Int2 => Float2
    case Int3 => Float3
    case Int4 => Float4
    case _ => n
  }

  /** The table agrees with the `Enum` aliasing rule for every name. */
  lemma MemberIsLookup(n: Name)
    ensures Member(n) == Lookup(n)
  {
    if IsMember(n) {
      OthersAreMembers(n);
    } else {
      IntsAliasFloats();
    }
  }

  /** A member that can stand in a vertex layout: every member but `NONE`,
      whose missing size makes the running offset sum raise `TypeError`. */
  type SizedType = t: ShaderDataType | t != None witness Float

  predicate IsMatrix(t: ShaderDataType)
  {
    t == Mat3 || t == Mat4
  }

  /** `t.count`: the components of a vector, the columns of a matrix. */
  function Count(t: SizedType): (r: nat)
    ensures 1 <= r <= 4
    ensures IsMatrix(t) ==> r == if t == Mat3 then 3 else 4
  {
    Declared(t).count
  }

  /** `t.size` in bytes. */
  function Size(t: SizedType): (r: nat)
    ensures r > 0
  {
    Declared(t).size
  }

  /** The sizes follow the components: four bytes per float or int
      component (a matrix has count columns of count floats), one byte for a
      bool. */
  lemma SizeFollowsCount(t: SizedType)
    ensures t == Bool ==> Size(t) == 1 && Count(t) == 1
    ensures t != Bool && !IsMatrix(t) ==> Size(t) == 4 * Count(t)
    ensures t == Mat3 ==> Size(t) == 36 && Count(t) == 3
    ensures t == Mat4 ==> Size(t) == 64 && Count(t) == 4
  {
  }
}
