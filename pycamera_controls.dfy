/** Control values of the older `pycamera` binding: the switch from a
    libcamera `ControlValue` to a Python object, the switch back for a
    given control type, and `Request.set_control`, which looks a control up
    by name among the camera's controls and stores the converted value in
    the request's control list. */
module PyControls {
  import opened Common

  /** libcamera's control types. */
  datatype ControlType =
    | TypeNone | TypeBool | TypeByte | TypeInteger32 | TypeInteger64
    | TypeFloat | TypeString | TypeRectangle | TypeSize

  /** A single (non-array) `ControlValue`. A float is kept as a real: its
      32-bit rounding is not part of this model. */
  datatype ControlValue =
    | NoValue
    | BoolValue(b: bool)
    | ByteValue(byte: int)
    | Int32Value(i32: int)
    | Int64Value(i64: int)
    | FloatValue(f: real)
    | StringValue(s: string)
    | RectangleValue(x: int, y: int, width: int, height: int)
    | SizeValue(w: int, h: int)

  /** The Python objects the conversions produce or accept. */
  datatype PyObject =
    | PyBool(b: bool)
    | PyInt(i: int)
    | PyFloat(f: real)
    | PyStr(s: string)
    | PyTuple(items: seq<PyObject>)
    | PyNone

  const UINT8_MAX: int := 0xff
  const INT32_MIN: int := -0x8000_0000
  const INT32_MAX: int := 0x7fff_ffff
  const INT64_MIN: int := -0x8000_0000_0000_0000
  const INT64_MAX: int := 0x7fff_ffff_ffff_ffff
  const UINT32_MAX: int := 0xffff_ffff

  function TypeOf(cv: ControlValue): ControlType
  {
    match cv
    case NoValue => TypeNone
    case BoolValue(_) => TypeBool
    case ByteValue(_) => TypeByte
    case Int32Value(_) => TypeInteger32
    case Int64Value(_) => TypeInteger64
    case FloatValue(_) => TypeFloat
    case StringValue(_) => TypeString
    case RectangleValue(_, _, _, _) => TypeRectangle
    case SizeValue(_, _) => TypeSize
  }

  /** The values a `ControlValue` of each type can hold: `uint8_t`,
      `int32_t`, `int64_t`, and a rectangle or size of `int32_t` position
      and `uint32_t` extent. */
  predicate Representable(cv: ControlValue)
  {
    match cv
    case ByteValue(v) => 0 <= v <= UINT8_MAX
    case Int32Value(v) => INT32_MIN <= v <= INT32_MAX
    case Int64Value(v) => INT64_MIN <= v <= INT64_MAX
    case RectangleValue(x, y, w, h) =>
      INT32_MIN <= x <= INT32_MAX && INT32_MIN <= y <= INT32_MAX && 0 <= w <= UINT32_MAX && 0 <= h <= UINT32_MAX
    case SizeValue(w, h) => 0 <= w <= UINT32_MAX && 0 <= h <= UINT32_MAX
    case _ => true
  }

  /** `ControlValueToPy`: one Python object per value; a rectangle becomes
      the tuple (x, y, width, height) and a size (width, height); a value
      of type None is refused. */
  function ControlValueToPy(cv: ControlValue): (r: Result<PyObject, string>)
    ensures r.Failure? <==> cv.NoValue?
    ensures r.Failure? ==> r.error == "Unsupported ControlValue type"
    ensures cv.RectangleValue? ==>
      r == Success(PyTuple([PyInt(cv.x), PyInt(cv.y), PyInt(cv.width), PyInt(cv.height)]))
    ensures cv.SizeValue? ==> r == Success(PyTuple([PyInt(cv.w), PyInt(cv.h)]))
  {
    match cv
    case NoValue => Failure("Unsupported ControlValue type")
    case BoolValue(b) => Success(PyBool(b))
    case ByteValue(v) => Success(PyInt(v))
    case Int32Value(v) => Success(PyInt(v))
    case Int64Value(v) => Success(PyInt(v))
    case FloatValue(f) => Success(PyFloat(f))
    case StringValue(s) => Success(PyStr(s))
    case RectangleValue(x, y, w, h) => Success(PyTuple([PyInt(x), PyInt(y), PyInt(w), PyInt(h)]))
    case SizeValue(w, h) => Success(PyTuple([PyInt(w), PyInt(h)]))
  }

  /** `ob.cast<T>()` for an integer type of range [lo, hi]: a Python int in
      range, anything else is a cast error. */
  function CastInt(ob: PyObject, lo: int, hi: int): (r: Result<int, string>)
    ensures r.Success? <==> ob.PyInt? && lo <= ob.i <= hi
    ensures r.Success? ==> r.value == ob.i
  {
    if ob.PyInt? && lo <= ob.i <= hi then Success(ob.i) else Failure("Unable to cast Python instance")
  }

  /** `PyToControlValue`: cast the object to the C++ type of `t` and wrap
      it; Rectangle, Size and None are refused before any cast. */
  function PyToControlValue(ob: PyObject, t: ControlType): (r: Result<ControlValue, string>)
    ensures t in {TypeRectangle, TypeSize, TypeNone} ==> r == Failure("Control type not implemented")
    ensures r.Success? ==> TypeOf(r.value) == t && Representable(r.value)
  {
    match t
    case TypeBool =>
      if ob.PyBool? then Success(BoolValue(ob.b)) else Failure("Unable to cast Python instance")
    case TypeByte =>
      var c := CastInt(ob, 0, UINT8_MAX);
      if c.Success? then Success(ByteValue(c.value)) else Failure(c.error)
    case TypeInteger32 =>
      var c := CastInt(ob, INT32_MIN, INT32_MAX);
      if c.Success? then Success(Int32Value(c.value)) else Failure(c.error)
    case TypeInteger64 =>
      var c := CastInt(ob, INT64_MIN, INT64_MAX);
      if c.Success? then Success(Int64Value(c.value)) else Failure(c.error)
    case TypeFloat =>
      if ob.PyFloat? then Success(FloatValue(ob.f))
      else if ob.PyInt? then Success(FloatValue(ob.i as real))
      else Failure("Unable to cast Python instance")
    case TypeString =>
      if ob.PyStr? then Success(StringValue(ob.s)) else Failure("Unable to cast Python instance")
    case TypeRectangle => Failure("Control type not implemented")
    case TypeSize => Failure("Control type not implemented")
    case TypeNone => Failure("Control type not implemented")
  }

  /** Round trip: every representable value of a type the setter handles
      comes back unchanged through Python. */
  lemma ControlValueRoundTrip(cv: ControlValue)
    requires Representable(cv) && TypeOf(cv) !in {TypeNone, TypeRectangle, TypeSize}
    ensures ControlValueToPy(cv).Success?
    ensures PyToControlValue(ControlValueToPy(cv).value, TypeOf(cv)) == Success(cv)
  {
  }

  /** Rectangles and sizes convert to Python but cannot be set from it. */
  lemma GeometryIsReadOnly(cv: ControlValue)
    requires cv.RectangleValue? || cv.SizeValue?
    ensures ControlValueToPy(cv).Success?
    ensures PyToControlValue(ControlValueToPy(cv).value, TypeOf(cv)) == Failure("Control type not implemented")
  {
  }

  /** Conversion from Python yields exactly the values of the requested
      type: what it accepts for an integer type is the Python ints in that
      type's range. */
  lemma IntegerCastExact(ob: PyObject, t: ControlType)
    requires t in {TypeByte, TypeInteger32, TypeInteger64}
    ensures PyToControlValue(ob, t).Success? <==>
      ob.PyInt? && Representable(match t
                                 case TypeByte => ByteValue(ob.i)
                                 case TypeInteger32 => Int32Value(ob.i)
                                 case _ => Int64Value(ob.i))
  {
  }

  /** One entry of the camera's `ControlInfoMap`: the control's id, name
      and type. */
  datatype ControlId = ControlId(id: nat, name: string, ctype: ControlType)

  /** The key `set_control`'s `find_if` compares: the control's name. */
  function ControlName(c: ControlId): string
  {
    c.name
  }

  /** The Python `Request` object: its control list, keyed by control id. */
  class Request {
    var controls: map<nat, ControlValue>

    constructor ()
      ensures controls == map[]
    {
      controls := map[];
    }

    /** `set_control`: fail with "Control not found" when no control of the
        camera `cameraControls` has that name; otherwise convert `value` to
        the first such control's type and store it under its id; a failed
        conversion leaves the list unchanged. */
    method SetControl(cameraControls: seq<ControlId>, name: string, value: PyObject) returns (r: Result<(), string>)
      modifies this
      ensures FindFirst(cameraControls, ControlName, name).None? ==>
        r == Failure("Control not found") && controls == old(controls)
      ensures FindFirst(cameraControls, ControlName, name).Some? ==>
        var info := cameraControls[FindFirst(cameraControls, ControlName, name).value];
        var cv := PyToControlValue(value, info.ctype);
        if cv.Success? then r.Success? && controls == old(controls)[info.id := cv.value]
        else r == Failure(cv.error) && controls == old(controls)
    {
      var k := FindFirst(cameraControls, ControlName, name);
      if k.None? {
        return Failure("Control not found");
      }
      var info := cameraControls[k.value];
      var cv := PyToControlValue(value, info.ctype);
      if cv.Failure? {
        return Failure(cv.error);
      }
      controls := controls[info.id := cv.value];
      return Success(());
    }
  }
}
