/** The `Uniform` value the parameter records read and write: one value of one of the
    shader uniform types, with a tag saying which. Its definition lives in gl_wrappers.hpp,
    which is not part of this model; here it is a tagged union. Reading it as a type other
    than its tag reinterprets its bytes in the source; the model reads the zero value of the
    requested type instead. Floats are held as exact reals. */
module Uniforms {

  type Vec2 = (real, real)
  type Vec3 = (real, real, real)
  type IVec2 = (int, int)

  datatype UniformType = Int32Type | Float32Type | Bool32Type | Vec2Type | Vec3Type | IVec2Type

  datatype Uniform =
    | Int32(i: int)
    | Float32(f: real)
    | Bool32(b: bool)
    | Vec2U(v2: Vec2)
    | Vec3U(v3: Vec3)
    | IVec2U(iv2: IVec2)

  /** `Uniform(0)`: the int uniform 0, what `get` returns for a code it does not list. */
  const ZeroInt: Uniform := Int32(0)

  function TypeOf(u: Uniform): UniformType {
    match u
    case Int32(_) => Int32Type
    case Float32(_) => Float32Type
    case Bool32(_) => Bool32Type
    case Vec2U(_) => Vec2Type
    case Vec3U(_) => Vec3Type
    case IVec2U(_) => IVec2Type
  }

  /** The members `val.i32`, `val.f32`, `val.b32`, `val.vec2`, `val.vec3`, `val.ivec2`. */
  function AsInt(u: Uniform): int {
    if u.Int32? then u.i else 0
  }

  function AsFloat(u: Uniform): real {
    if u.Float32? then u.f else 0.0
  }

  function AsBool(u: Uniform): bool {
    if u.Bool32? then u.b else false
  }

  function AsVec2(u: Uniform): Vec2 {
    if u.Vec2U? then u.v2 else (0.0, 0.0)
  }

  function AsVec3(u: Uniform): Vec3 {
    if u.Vec3U? then u.v3 else (0.0, 0.0, 0.0)
  }

  function AsIVec2(u: Uniform): IVec2 {
    if u.IVec2U? then u.iv2 else (0, 0)
  }

  /** What storing u in a field of type t and reading the field back gives: the uniform of
      type t built from u's member of that type. */
  function Retag(u: Uniform, t: UniformType): (r: Uniform)
    ensures TypeOf(r) == t
    ensures TypeOf(u) == t ==> r == u
  {
    match t
    case Int32Type => Int32(AsInt(u))
    case Float32Type => Float32(AsFloat(u))
    case Bool32Type => Bool32(AsBool(u))
    case Vec2Type => Vec2U(AsVec2(u))
    case Vec3Type => Vec3U(AsVec3(u))
    case IVec2Type => IVec2U(AsIVec2(u))
  }
}
