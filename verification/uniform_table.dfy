/** The part of a parameter record that its uniform `set` and `get` reach. Both switch on
    an integer code, and each listed code names exactly one field of one uniform type. So
    the model holds those fields as a table from code to value, together with a `Kinds`
    function giving, for each code, the type of the field the switch sends it to, or
    `None` for a code the switch does not list. `set` stores the value's member of the
    field's type; `get` reads the field back tagged with that type, and `Uniform(0)` for an
    unlisted code. */
module UniformTable {

  import opened Uniforms

  datatype Option<T> = None | Some(value: T)

  type Kinds = int -> Option<UniformType>

  type Table = map<int, Uniform>

  /** A drop-down list of both parameter records: neither switch reaches it. */
  datatype SelectionList = SelectionList(selected: int, options: seq<string>)

  /** A table holding exactly the listed codes, each with a value of its field's type: what
      every parameter record holds. */
  ghost predicate Typed(kinds: Kinds, values: Table) {
    (forall c :: c in values <==> kinds(c).Some?)
    && (forall c :: c in values ==> TypeOf(values[c]) == kinds(c).value)
  }

  /** The uniform `get`. */
  function Get(kinds: Kinds, values: Table, code: int): (u: Uniform)
    ensures kinds(code).None? ==> u == ZeroInt
    ensures kinds(code).Some? ==> TypeOf(u) == kinds(code).value
    ensures Typed(kinds, values) && kinds(code).Some? ==> u == values[code]
  {
    match kinds(code)
    case None => ZeroInt
    case Some(t) => Retag(if code in values then values[code] else ZeroInt, t)
  }

  /** The uniform `set`: a listed code's field takes the value's member of the field's
      type; every other field keeps its value. */
  function Set(kinds: Kinds, values: Table, code: int, val: Uniform): (r: Table)
    ensures kinds(code).None? ==> r == values
    ensures kinds(code).Some? ==> code in r && TypeOf(r[code]) == kinds(code).value
    ensures forall c :: c != code ==> (c in r <==> c in values)
    ensures forall c :: c != code && c in values ==> r[c] == values[c]
    ensures Typed(kinds, values) ==> Typed(kinds, r)
  {
    match kinds(code)
    case None => values
    case Some(t) => values[code := Retag(val, t)]
  }

  /** Reading a listed code after setting it gives the value set, as the field's type; a
      value of that type comes back unchanged. */
  lemma GetAfterSet(kinds: Kinds, values: Table, code: int, val: Uniform)
    requires kinds(code).Some?
    ensures Get(kinds, Set(kinds, values, code, val), code) == Retag(val, kinds(code).value)
    ensures TypeOf(val) == kinds(code).value ==> Get(kinds, Set(kinds, values, code, val), code) == val
  {
  }

  /** Writing back what was read changes nothing. */
  lemma SetAfterGet(kinds: Kinds, values: Table, code: int)
    requires Typed(kinds, values)
    ensures Set(kinds, values, code, Get(kinds, values, code)) == values
  {
    if kinds(code).Some? {
      assert values[code := values[code]] == values;
    }
  }

  /** A second set of the same code overrides the first. */
  lemma SetTwice(kinds: Kinds, values: Table, code: int, v1: Uniform, v2: Uniform)
    ensures Set(kinds, Set(kinds, values, code, v1), code, v2) == Set(kinds, values, code, v2)
  {
  }

  /** Setting one code leaves what every other code reads as it was. */
  lemma SetFrame(kinds: Kinds, values: Table, code: int, other: int, val: Uniform)
    requires other != code
    ensures Get(kinds, Set(kinds, values, code, val), other) == Get(kinds, values, other)
  {
  }

  /** A uniform of the same type as u but a different value. */
  function Other(u: Uniform): (r: Uniform)
    ensures TypeOf(r) == TypeOf(u) && r != u
  {
    match u
    case Int32(i) => Int32(i + 1)
    case Float32(f) => Float32(f + 1.0)
    case Bool32(b) => Bool32(!b)
    case Vec2U(v) => Vec2U((v.0 + 1.0, v.1))
    case Vec3U(v) => Vec3U((v.0 + 1.0, v.1, v.2))
    case IVec2U(v) => IVec2U((v.0 + 1, v.1))
  }

  /** `set` and `get` list the same codes: exactly the codes `get` gives a typed field for
      are the codes some `set` changes the record for. */
  lemma SetAndGetListSameCodes(kinds: Kinds, values: Table, code: int)
    ensures kinds(code).None? <==> forall v :: Set(kinds, values, code, v) == values
    ensures kinds(code).None? <==> Get(kinds, values, code) == ZeroInt && forall v :: Get(kinds, Set(kinds, values, code, v), code) == ZeroInt
  {
    if kinds(code).Some? {
      var t := kinds(code).value;
      var current := Retag(if code in values then values[code] else ZeroInt, t);
      var v := Other(current);
      assert Set(kinds, values, code, v)[code] == v;
      if code in values {
        assert TypeOf(values[code]) != t || values[code] == current;
      }
      assert Set(kinds, values, code, v) != values;
      GetAfterSet(kinds, values, code, Other(Retag(ZeroInt, t)));
    }
  }
}
