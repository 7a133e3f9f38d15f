/**
 * The point-map import tool (csv_to_pointmap.py): register rows of a
 * device's CSV export become Modbus points, with cleaned names, converted
 * types and units, adjusted scale factors and plausibility ranges; the
 * points are then sorted into preview categories.
 *
 * Python's `str.isalnum()`/`str.isdigit()` agree with ASCII on ASCII
 * characters; on the others they are given by `CharClasses`.  `float()` on a
 * cell is the parameter `parseFloat`, `None` where it raises ValueError.
 */
module CsvPointmap {

  import opened Common
  import opened Strings

  /** Python's classification of the characters outside ASCII. */
  datatype CharClasses = CharClasses(nonAsciiAlnum: char -> bool, nonAsciiDigit: char -> bool)

  predicate IsAlnum(cc: CharClasses, c: char)
  {
    if c < '\U{0080}' then IsAsciiLetter(c) || IsAsciiDigit(c) else cc.nonAsciiAlnum(c)
  }

  predicate IsDigit(cc: CharClasses, c: char)
  {
    if c < '\U{0080}' then IsAsciiDigit(c) else cc.nonAsciiDigit(c)
  }

  /** The Greek and mathematical letters spelled out before cleaning. */
  predicate IsSpelledOut(c: char)
  {
    c == '\U{2211}' || c == '\U{0394}' || c == '\U{03C6}' || c == '\U{03B8}'
    || c == '\U{03B1}' || c == '\U{03B2}' || c == '\U{03B3}'
  }

  /** What one character is spelled out as: ∑ → SUM_, Δ → DELTA_, φ → PHI_, θ → THETA_, α → ALPHA_, β → BETA_, γ → GAMMA_. */
  function SpellOutChar(c: char): (r: string)
    ensures c == '\U{2211}' ==> r == "SUM_"
    ensures c == '\U{0394}' ==> r == "DELTA_"
    ensures c == '\U{03C6}' ==> r == "PHI_"
    ensures c == '\U{03B8}' ==> r == "THETA_"
    ensures c == '\U{03B1}' ==> r == "ALPHA_"
    ensures c == '\U{03B2}' ==> r == "BETA_"
    ensures c == '\U{03B3}' ==> r == "GAMMA_"
    ensures |r| >= 1
    ensures forall k :: 0 <= k < |r| ==> !IsSpelledOut(r[k])
    ensures !IsSpelledOut(c) ==> r == [c]
  {
    if c == '\U{2211}' then "SUM_"
    else if c == '\U{0394}' then "DELTA_"
    else if c == '\U{03C6}' then "PHI_"
    else if c == '\U{03B8}' then "THETA_"
    else if c == '\U{03B1}' then "ALPHA_"
    else if c == '\U{03B2}' then "BETA_"
    else if c == '\U{03B3}' then "GAMMA_"
    else [c]
  }

  /**
   * The seven `replace` calls. No replacement text contains any of the seven
   * letters, so replacing them one after the other is the same as spelling
   * out each character in a single pass, which is what this does.
   */
  function SpellOut(param: string): (r: string)
    ensures forall k :: 0 <= k < |r| ==> !IsSpelledOut(r[k])
    ensures |r| >= |param|
    ensures (forall k :: 0 <= k < |param| ==> !IsSpelledOut(param[k])) ==> r == param
  {
    if |param| == 0 then ""
    else
      var head := SpellOutChar(param[0]);
      var rest := SpellOut(param[1..]);
      assert forall k :: 1 <= k < |param| ==> param[k] == param[1..][k - 1];
      assert forall k :: |head| <= k < |head| + |rest| ==> (head + rest)[k] == rest[k - |head|];
      head + rest
  }

  /** Every character that is neither alphanumeric nor '_' or '-' becomes '_'. */
  function Sanitize(cc: CharClasses, s: string): (r: string)
    ensures |r| == |s|
    ensures forall k :: 0 <= k < |r| ==> IsAlnum(cc, r[k]) || r[k] == '_' || r[k] == '-'
    ensures forall k :: 0 <= k < |r| ==> r[k] == s[k] || r[k] == '_'
    ensures forall k :: 0 <= k < |s| && (IsAlnum(cc, s[k]) || s[k] == '_' || s[k] == '-') ==> r[k] == s[k]
  {
    seq(|s|, k requires 0 <= k < |s| => if IsAlnum(cc, s[k]) || s[k] == '_' || s[k] == '-' then s[k] else '_')
  }

  /** `clean_parameter_name`. */
  function CleanParameterName(cc: CharClasses, param: string): (r: string)
    ensures |r| > 0
    ensures forall k :: 0 <= k < |r| ==> IsAlnum(cc, r[k]) || r[k] == '_' || r[k] == '-'
    ensures !IsDigit(cc, r[0])
    ensures param == "" ==> r == "UNKNOWN"
    ensures param != "" ==> |r| >= |param|
  {
    var cleaned := Sanitize(cc, SpellOut(param));
    if |cleaned| > 0 && IsDigit(cc, cleaned[0]) then "REG_" + cleaned
    else if |cleaned| == 0 then "UNKNOWN"
    else cleaned
  }

  /** A cleaned name has no spelled-out letter left. */
  lemma CleanedHasNoSpelledOut(cc: CharClasses, param: string)
    ensures forall k :: 0 <= k < |CleanParameterName(cc, param)| ==> !IsSpelledOut(CleanParameterName(cc, param)[k])
  {
    var spelled := SpellOut(param);
    var cleaned := Sanitize(cc, spelled);
    assert forall k :: 0 <= k < |cleaned| ==> !IsSpelledOut(cleaned[k]);
  }

  /** Cleaning a cleaned name changes nothing. */
  lemma CleanIdempotent(cc: CharClasses, param: string)
    ensures CleanParameterName(cc, CleanParameterName(cc, param)) == CleanParameterName(cc, param)
  {
    var r := CleanParameterName(cc, param);
    CleanedHasNoSpelledOut(cc, param);
    assert SpellOut(r) == r;
    assert Sanitize(cc, r) == r;
  }

  /** The point-map data types, keyed by the CSV's type names. */
  function TypeMapping(): map<string, string>
  {
    map["float" := "float32", "int" := "int16", "uint" := "uint16", "long" := "int32",
        "ulong" := "uint32", "bool" := "boolean", "bit" := "bitfield16"]
  }

  /** `convert_data_type`: the lower-cased, stripped name looked up; 'float32' for anything else. */
  function ConvertDataType(csvType: string): (r: string)
    ensures PyStrip(Lower(csvType)) in TypeMapping() ==> r == TypeMapping()[PyStrip(Lower(csvType))]
    ensures PyStrip(Lower(csvType)) !in TypeMapping() ==> r == "float32"
    ensures r in TypeMapping().Values
  {
    var key := PyStrip(Lower(csvType));
    assert TypeMapping()["float"] == "float32";
    if key in TypeMapping() then TypeMapping()[key] else "float32"
  }

  /** The standard units, keyed by the CSV's unit names. */
  function UnitMapping(): map<string, string>
  {
    map["mA" := "A", "kW" := "kW", "W" := "kW", "kVar" := "kVar", "var" := "kVar", "V" := "V",
        "A" := "A", "Hz" := "Hz", "\U{00B0}C" := "\U{00B0}C", "C" := "\U{00B0}C", "%" := "%", "" := "none"]
  }

  /** `convert_unit`: the stripped unit looked up; an unknown unit passes through stripped. */
  function ConvertUnit(csvUnit: string): (r: string)
    ensures PyStrip(csvUnit) in UnitMapping() ==> r == UnitMapping()[PyStrip(csvUnit)]
    ensures PyStrip(csvUnit) !in UnitMapping() ==> r == PyStrip(csvUnit)
    ensures r != ""
  {
    var u := PyStrip(csvUnit);
    if u in UnitMapping() then UnitMapping()[u] else if u == "" then "none" else u
  }

  /** The units that are renamed, blanks around them ignored: milliamperes, watts and vars become A, kW and kVar, and C becomes degrees Celsius. */
  lemma UnitConversions(u: string)
    requires PyStrip(u) in {"mA", "W", "var", "C"}
    ensures ConvertUnit(u) == UnitMapping()[PyStrip(u)] && ConvertUnit(u) != PyStrip(u)
  {
    var v := PyStrip(u);
    var m := UnitMapping();
    if v == "mA" {
      assert m[v] == "A";
    } else if v == "W" {
      assert m[v] == "kW";
    } else if v == "var" {
      assert m[v] == "kVar";
    } else {
      assert m[v] == "\U{00B0}C";
    }
  }

  /** An empty or blank unit becomes 'none'. */
  lemma BlankUnitIsNone(u: string)
    requires forall k :: 0 <= k < |u| ==> IsPySpace(u[k])
    ensures ConvertUnit(u) == "none"
  {
    assert PyStrip(u) == "";
  }

  /** The factor `adjust_scale_for_unit_conversion` multiplies by. */
  function ScaleFactor(csvUnit: string, targetUnit: string): (f: real)
    ensures f == 0.001 <==> (PyStrip(csvUnit), targetUnit) in {("mA", "A"), ("W", "kW"), ("var", "kVar")}
    ensures f != 0.001 ==> f == 1.0
  {
    var u := PyStrip(csvUnit);
    if (u == "mA" && targetUnit == "A") || (u == "W" && targetUnit == "kW") || (u == "var" && targetUnit == "kVar")
    then 0.001 else 1.0
  }

  /** A Python float: a finite value (in exact arithmetic), an infinity, or not a number. */
  datatype PyFloat = Finite(value: real) | Infinite(negative: bool) | NaN

  /**
   * `adjust_scale_for_unit_conversion`: a finite scale is multiplied by the
   * factor; an infinity or NaN times a positive factor stays what it was.
   */
  function AdjustScale(scale: PyFloat, csvUnit: string, targetUnit: string): (r: PyFloat)
    ensures ScaleFactor(csvUnit, targetUnit) == 1.0 ==> r == scale
    ensures scale.Finite? && ScaleFactor(csvUnit, targetUnit) == 0.001 ==> r == Finite(scale.value / 1000.0)
    ensures !scale.Finite? ==> r == scale
  {
    if scale.Finite? then Finite(scale.value * ScaleFactor(csvUnit, targetUnit)) else scale
  }

  /** The plausibility range attached to a point of the given standard unit. */
  function RangeFor(unit: string): (r: Option<(real, real)>)
    ensures unit == "V" <==> r == Some((0.0, 1000.0))
    ensures unit == "A" <==> r == Some((0.0, 10000.0))
    ensures unit == "Hz" <==> r == Some((45.0, 55.0))
    ensures unit == "%" <==> r == Some((0.0, 100.0))
    ensures r.None? <==> unit !in {"V", "A", "Hz", "%"}
  {
    if unit == "V" then Some((0.0, 1000.0))
    else if unit == "A" then Some((0.0, 10000.0))
    else if unit == "Hz" then Some((45.0, 55.0))
    else if unit == "%" then Some((0.0, 100.0))
    else None
  }

  /** Read Holding Registers, the function code of every imported point. */
  const ReadHoldingRegisters := 3

  datatype Point = Point(address: int, functionCode: int, dataType: string, byteCount: int, scale: PyFloat,
                         offset: int, unit: string, description: string, readOnly: bool,
                         originalParameter: string, originalUnit: string, range: Option<(real, real)>)

  /**
   * A CSV row as `csv.DictReader` yields it: the cells by header, `None`
   * for the cells a row shorter than the header lacks.
   */
  type Row = map<string, Option<string>>

  /** `row.get(column, default)`. */
  function Cell(row: Row, column: string, default: string): Option<string>
  {
    if column in row then row[column] else Some(default)
  }

  /** `row.get(column, default).strip()`: `None` where the cell is `None` and `strip` raises AttributeError. */
  function StrippedCell(row: Row, column: string, default: string): (r: Option<string>)
    ensures r.None? <==> Cell(row, column, default).None?
    ensures r.Some? ==> r.value == PyStrip(Cell(row, column, default).value)
  {
    match Cell(row, column, default)
    case None => None
    case Some(text) => Some(PyStrip(text))
  }

  /** Python's `int()` of a float: truncation toward zero. */
  function Truncate(x: real): (n: int)
    ensures x >= 0.0 ==> n == x.Floor
    ensures x < 0.0 ==> n == -((-x).Floor)
  {
    if x >= 0.0 then x.Floor else -((-x).Floor)
  }

  /** What `int(float(text))` does: a value, a ValueError (caught), or an OverflowError (not caught). */
  datatype IntParse = IntValue(n: int) | ValueError | OverflowError

  function IntOfFloat(text: string, parseFloat: string -> Option<PyFloat>): (r: IntParse)
    ensures parseFloat(text).None? || parseFloat(text) == Some(NaN) <==> r == ValueError
    ensures r == OverflowError <==> parseFloat(text).Some? && parseFloat(text).value.Infinite?
    ensures r.IntValue? ==> (parseFloat(text).Some? && parseFloat(text).value.Finite?
                             && r.n == Truncate(parseFloat(text).value.value))
  {
    match parseFloat(text)
    case None => ValueError
    case Some(Finite(x)) => IntValue(Truncate(x))
    case Some(Infinite(_)) => OverflowError
    case Some(NaN) => ValueError
  }

  /**
   * The outcome of one row: skipped, rejected with a warning (a ValueError),
   * an uncaught exception that ends the import, or a point under a name.
   */
  datatype RowOutcome = Skipped | Rejected | Raised | Accepted(name: string, point: Point)

  const RegisterColumn := "Register Ba\U{015F}lang\U{0131}\U{00E7}"
  const LengthColumn := "Register Uznluk"
  const ParameterColumn := "Parametre"
  const UnitColumn := "Birim"
  const ScaleColumn := "Scale"
  const TypeColumn := "Veri Tipi"
  const DescriptionColumn := "A\U{00E7}\U{0131}klama (T\U{00FC}rk\U{00E7}e)"

  /** Whether every cell `ParseRow` reads from a row is present. */
  predicate CellsPresent(row: Row)
  {
    Cell(row, RegisterColumn, "").Some? && Cell(row, ParameterColumn, "").Some? && Cell(row, LengthColumn, "2").Some?
    && Cell(row, UnitColumn, "").Some? && Cell(row, ScaleColumn, "1.0").Some? && Cell(row, TypeColumn, "float").Some?
    && Cell(row, DescriptionColumn, "").Some?
  }

  /** `int(float(text)) if text else 2`: the register length, two registers when the cell is blank. */
  function LengthOf(text: string, parseFloat: string -> Option<PyFloat>): IntParse
  {
    if text == "" then IntValue(2) else IntOfFloat(text, parseFloat)
  }

  /** `float(text) if text else 1.0`: the scale, `None` where `float()` raises ValueError. */
  function ScaleOf(text: string, parseFloat: string -> Option<PyFloat>): Option<PyFloat>
  {
    if text == "" then Some(Finite(1.0)) else parseFloat(text)
  }

  /** Whether the register and parameter cells are present and not blank, so the row is not skipped. */
  predicate Named(row: Row)
  {
    StrippedCell(row, RegisterColumn, "").Some? && StrippedCell(row, RegisterColumn, "").value != ""
    && StrippedCell(row, ParameterColumn, "").Some? && StrippedCell(row, ParameterColumn, "").value != ""
  }

  /** Whether every number of a row whose cells are all present converts: the register, the length and the scale. */
  predicate NumbersConvert(row: Row, parseFloat: string -> Option<PyFloat>)
    requires CellsPresent(row)
  {
    IntOfFloat(StrippedCell(row, RegisterColumn, "").value, parseFloat).IntValue?
    && LengthOf(StrippedCell(row, LengthColumn, "2").value, parseFloat).IntValue?
    && ScaleOf(StrippedCell(row, ScaleColumn, "1.0").value, parseFloat).Some?
  }

  /*
   * The stages of a named row, each after the one before succeeded: the
   * register, the length, then the unit, scale, type and description cells.
   * A stage rejects on a ValueError and accepts when it and every later
   * stage succeed; otherwise it raises.
   */

  /** The cells after the length: the scale rejects once the unit and scale cells are read. */
  predicate ScaleRejects(row: Row, parseFloat: string -> Option<PyFloat>)
  {
    StrippedCell(row, UnitColumn, "").Some? && StrippedCell(row, ScaleColumn, "1.0").Some?
    && ScaleOf(StrippedCell(row, ScaleColumn, "1.0").value, parseFloat).None?
  }

  /** The cells after the length: all four present and the scale converts. */
  predicate TailAccepts(row: Row, parseFloat: string -> Option<PyFloat>)
  {
    Cell(row, UnitColumn, "").Some? && Cell(row, ScaleColumn, "1.0").Some?
    && Cell(row, TypeColumn, "float").Some? && Cell(row, DescriptionColumn, "").Some?
    && ScaleOf(StrippedCell(row, ScaleColumn, "1.0").value, parseFloat).Some?
  }

  /** The length stage rejects: its cell is read and does not convert, or it converts and the scale rejects. */
  predicate LengthRejects(row: Row, parseFloat: string -> Option<PyFloat>)
  {
    StrippedCell(row, LengthColumn, "2").Some?
    && (LengthOf(StrippedCell(row, LengthColumn, "2").value, parseFloat) == ValueError
        || (LengthOf(StrippedCell(row, LengthColumn, "2").value, parseFloat).IntValue? && ScaleRejects(row, parseFloat)))
  }

  /** The length stage accepts: its cell is present and converts, and the later cells accept. */
  predicate LengthAccepts(row: Row, parseFloat: string -> Option<PyFloat>)
  {
    StrippedCell(row, LengthColumn, "2").Some?
    && LengthOf(StrippedCell(row, LengthColumn, "2").value, parseFloat).IntValue? && TailAccepts(row, parseFloat)
  }

  /** Whether a named row meets a ValueError before any exception that is not caught. */
  predicate RejectedRow(row: Row, parseFloat: string -> Option<PyFloat>)
    requires Named(row)
  {
    var reg := IntOfFloat(StrippedCell(row, RegisterColumn, "").value, parseFloat);
    reg == ValueError || (reg.IntValue? && LengthRejects(row, parseFloat))
  }

  /** Whether a named row becomes a point: its register converts and the later stages accept. */
  predicate AcceptedRow(row: Row, parseFloat: string -> Option<PyFloat>)
    requires Named(row)
  {
    IntOfFloat(StrippedCell(row, RegisterColumn, "").value, parseFloat).IntValue? && LengthAccepts(row, parseFloat)
  }

  /**
   * What the point of a row with parameter `param` holds, besides its
   * address and byte count: function code 3, read-only, no offset, the
   * converted unit with its range, the converted type, the scale adjusted
   * to the unit, the description (the parameter when the column is absent),
   * and the parameter and unit as read.
   */
  predicate PointFromCells(row: Row, parseFloat: string -> Option<PyFloat>, param: string, point: Point)
  {
    point.functionCode == ReadHoldingRegisters && point.readOnly && point.offset == 0
    && Cell(row, UnitColumn, "").Some? && StrippedCell(row, ScaleColumn, "1.0").Some?
    && StrippedCell(row, TypeColumn, "float").Some? && StrippedCell(row, DescriptionColumn, param).Some?
    && ScaleOf(StrippedCell(row, ScaleColumn, "1.0").value, parseFloat).Some?
    && point.unit == ConvertUnit(Cell(row, UnitColumn, "").value) && point.range == RangeFor(point.unit)
    && point.dataType == ConvertDataType(StrippedCell(row, TypeColumn, "float").value)
    && point.scale == AdjustScale(ScaleOf(StrippedCell(row, ScaleColumn, "1.0").value, parseFloat).value,
                                  PyStrip(Cell(row, UnitColumn, "").value), point.unit)
    && point.description == StrippedCell(row, DescriptionColumn, param).value
    && point.originalParameter == param && point.originalUnit == PyStrip(Cell(row, UnitColumn, "").value)
  }

  /**
   * The name and point of an accepted row: the cleaned parameter, the
   * register and length as converted (two registers for a blank length),
   * and the other cells as `PointFromCells` says.
   */
  predicate AcceptedFrom(cc: CharClasses, row: Row, parseFloat: string -> Option<PyFloat>, name: string, point: Point)
  {
    StrippedCell(row, RegisterColumn, "").Some? && StrippedCell(row, ParameterColumn, "").Some?
    && StrippedCell(row, LengthColumn, "2").Some?
    && name == CleanParameterName(cc, StrippedCell(row, ParameterColumn, "").value)
    && IntOfFloat(StrippedCell(row, RegisterColumn, "").value, parseFloat) == IntValue(point.address)
    && LengthOf(StrippedCell(row, LengthColumn, "2").value, parseFloat) == IntValue(point.byteCount)
    && (StrippedCell(row, LengthColumn, "2") == Some("") ==> point.byteCount == 2)
    && PointFromCells(row, parseFloat, StrippedCell(row, ParameterColumn, "").value, point)
  }

  /**
   * The body of the row loop, step by step in the script's order: a missing
   * (`None`) cell raises when it is stripped; a row without a register or a
   * parameter is skipped; a number `float()` refuses, or a NaN given to
   * `int()`, rejects the row (the warning path); an infinite register or
   * length raises OverflowError; otherwise the row becomes a point under
   * its cleaned name.
   */
  function ParseRow(cc: CharClasses, row: Row, parseFloat: string -> Option<PyFloat>): (r: RowOutcome)
    ensures r.Accepted? ==> Named(row) && AcceptedFrom(cc, row, parseFloat, r.name, r.point)
  {
    match StrippedCell(row, RegisterColumn, "")
    case None => Raised
    case Some(regStart) =>
      if regStart == "" then Skipped
      else match StrippedCell(row, ParameterColumn, "")
      case None => Raised
      case Some(param) =>
        if param == "" then Skipped
        else match IntOfFloat(regStart, parseFloat)
        case ValueError => Rejected
        case OverflowError => Raised
        case IntValue(address) => ParseLength(cc, row, parseFloat, param, address)
  }

  /** A named row whose register converted to `address`: the length's conversion, then the other cells. */
  function ParseLength(cc: CharClasses, row: Row, parseFloat: string -> Option<PyFloat>, param: string, address: int): (r: RowOutcome)
    requires Named(row) && param == StrippedCell(row, ParameterColumn, "").value
    requires IntOfFloat(StrippedCell(row, RegisterColumn, "").value, parseFloat) == IntValue(address)
    ensures !r.Skipped?
    ensures r.Rejected? <==> LengthRejects(row, parseFloat)
    ensures r.Accepted? <==> LengthAccepts(row, parseFloat)
    ensures r.Accepted? ==> AcceptedFrom(cc, row, parseFloat, r.name, r.point)
  {
    match StrippedCell(row, LengthColumn, "2")
    case None => Raised
    case Some(lengthText) =>
      match LengthOf(lengthText, parseFloat)
      case ValueError => Rejected
      case OverflowError => Raised
      case IntValue(byteCount) => ParsePoint(cc, row, parseFloat, param, address, byteCount)
  }

  /** The rest of the row once the register and its length are read: the unit and scale cells, then the type and description. */
  function ParsePoint(cc: CharClasses, row: Row, parseFloat: string -> Option<PyFloat>, param: string, address: int, byteCount: int): (r: RowOutcome)
    ensures !r.Skipped?
    ensures r.Rejected? <==> ScaleRejects(row, parseFloat)
    ensures r.Accepted? <==> TailAccepts(row, parseFloat)
    ensures r.Accepted? ==> r.name == CleanParameterName(cc, param) && r.point.address == address && r.point.byteCount == byteCount
    ensures r.Accepted? ==> PointFromCells(row, parseFloat, param, r.point)
  {
    match StrippedCell(row, UnitColumn, "")
    case None => Raised
    case Some(unit) =>
      match StrippedCell(row, ScaleColumn, "1.0")
      case None => Raised
      case Some(scaleText) =>
        match ScaleOf(scaleText, parseFloat)
        case None => Rejected
        case Some(scale) => ParseTyped(cc, row, parseFloat, param, address, byteCount, unit, scale)
  }

  /** The type and description cells of a row whose unit `unit` and scale `scale` were read, then the point. */
  function ParseTyped(cc: CharClasses, row: Row, parseFloat: string -> Option<PyFloat>, param: string, address: int, byteCount: int,
                      unit: string, scale: PyFloat): (r: RowOutcome)
    requires StrippedCell(row, UnitColumn, "") == Some(unit) && StrippedCell(row, ScaleColumn, "1.0").Some?
    requires ScaleOf(StrippedCell(row, ScaleColumn, "1.0").value, parseFloat) == Some(scale)
    ensures r.Raised? || r.Accepted?
    ensures r.Accepted? <==> Cell(row, TypeColumn, "float").Some? && Cell(row, DescriptionColumn, "").Some?
    ensures r.Accepted? ==> r.name == CleanParameterName(cc, param) && r.point.address == address && r.point.byteCount == byteCount
    ensures r.Accepted? ==> PointFromCells(row, parseFloat, param, r.point)
  {
    assert Cell(row, DescriptionColumn, param).Some? <==> Cell(row, DescriptionColumn, "").Some?;
    match StrippedCell(row, TypeColumn, "float")
    case None => Raised
    case Some(dataType) =>
      match StrippedCell(row, DescriptionColumn, param)
      case None => Raised
      case Some(description) =>
        var target := ConvertUnit(unit);
        ConvertUnitStripped(Cell(row, UnitColumn, "").value);
        Accepted(CleanParameterName(cc, param),
          Point(address, ReadHoldingRegisters, ConvertDataType(dataType), byteCount,
                AdjustScale(scale, unit, target), 0, target,
                description, true, param, unit, RangeFor(target)))
  }

  /**
   * Which outcome a row has: a missing register cell, or a missing parameter
   * cell after a given register, raises; a blank register or parameter skips
   * the row; a named row is rejected, accepted or raises as its stages say,
   * and an infinite register raises.
   */
  lemma RowOutcomes(cc: CharClasses, row: Row, parseFloat: string -> Option<PyFloat>)
    ensures StrippedCell(row, RegisterColumn, "").None? ==> ParseRow(cc, row, parseFloat) == Raised
    ensures (StrippedCell(row, RegisterColumn, "").Some? && StrippedCell(row, RegisterColumn, "") != Some("")
             && StrippedCell(row, ParameterColumn, "").None?) ==> ParseRow(cc, row, parseFloat) == Raised
    ensures ParseRow(cc, row, parseFloat).Skipped? <==> (StrippedCell(row, RegisterColumn, "") == Some("")
      || (StrippedCell(row, RegisterColumn, "").Some? && StrippedCell(row, ParameterColumn, "") == Some("")))
    ensures ParseRow(cc, row, parseFloat).Rejected? <==> Named(row) && RejectedRow(row, parseFloat)
    ensures ParseRow(cc, row, parseFloat).Accepted? <==> Named(row) && AcceptedRow(row, parseFloat)
    ensures Named(row) && IntOfFloat(StrippedCell(row, RegisterColumn, "").value, parseFloat) == OverflowError
      ==> ParseRow(cc, row, parseFloat) == Raised
  {
  }

  /**
   * A row is accepted exactly when its register and parameter are given,
   * every cell the script reads is present, and the register, the length
   * and the scale convert.
   */
  lemma AcceptedIffWellFormed(cc: CharClasses, row: Row, parseFloat: string -> Option<PyFloat>)
    ensures ParseRow(cc, row, parseFloat).Accepted? <==> Named(row) && CellsPresent(row) && NumbersConvert(row, parseFloat)
  {
    RowOutcomes(cc, row, parseFloat);
    if Named(row) && CellsPresent(row) {
      assert StrippedCell(row, LengthColumn, "2").Some?;
    }
  }

  /**
   * A missing cell of a named row raises once the script reaches it: the
   * row ends the import unless a number read before that cell rejects it.
   */
  lemma MissingCellRaises(cc: CharClasses, row: Row, parseFloat: string -> Option<PyFloat>)
    requires Named(row) && !CellsPresent(row) && !RejectedRow(row, parseFloat)
    ensures ParseRow(cc, row, parseFloat) == Raised
  {
    RowOutcomes(cc, row, parseFloat);
    AcceptedIffWellFormed(cc, row, parseFloat);
  }

  /** A row that lacks its register cell ends the import, whatever else it holds. */
  lemma ShortRowRaises(cc: CharClasses, row: Row, parseFloat: string -> Option<PyFloat>)
    requires RegisterColumn in row && row[RegisterColumn].None?
    ensures ParseRow(cc, row, parseFloat) == Raised
  {
  }

  /** A register cell that reads as infinity, such as 'inf' or '1e999', ends the import. */
  lemma InfiniteRegisterRaises(cc: CharClasses, row: Row, parseFloat: string -> Option<PyFloat>)
    requires StrippedCell(row, RegisterColumn, "").Some? && StrippedCell(row, RegisterColumn, "") != Some("")
    requires StrippedCell(row, ParameterColumn, "").Some? && StrippedCell(row, ParameterColumn, "") != Some("")
    requires parseFloat(StrippedCell(row, RegisterColumn, "").value).Some?
    requires parseFloat(StrippedCell(row, RegisterColumn, "").value).value.Infinite?
    ensures ParseRow(cc, row, parseFloat) == Raised
  {
    assert IntOfFloat(StrippedCell(row, RegisterColumn, "").value, parseFloat) == OverflowError;
  }

  /**
   * A file without the length or scale column reads the default texts '2'
   * and '1.0' through `float()`: when those parse as 2 and 1, an accepted
   * row has two registers and the scale of the unit conversion alone.
   */
  lemma AbsentColumnsGiveDefaults(cc: CharClasses, row: Row, parseFloat: string -> Option<PyFloat>)
    requires LengthColumn !in row && ScaleColumn !in row
    requires parseFloat("2") == Some(Finite(2.0)) && parseFloat("1.0") == Some(Finite(1.0))
    requires ParseRow(cc, row, parseFloat).Accepted?
    ensures ParseRow(cc, row, parseFloat).point.byteCount == 2
    ensures ParseRow(cc, row, parseFloat).point.scale
         == AdjustScale(Finite(1.0), PyStrip(Cell(row, UnitColumn, "").value), ParseRow(cc, row, parseFloat).point.unit)
  {
    var r := ParseRow(cc, row, parseFloat);
    DefaultCells(cc, row, parseFloat, r.name, r.point);
  }

  /** The two default texts, read by a row that has been accepted. */
  lemma DefaultCells(cc: CharClasses, row: Row, parseFloat: string -> Option<PyFloat>, name: string, point: Point)
    requires LengthColumn !in row && ScaleColumn !in row
    requires parseFloat("2") == Some(Finite(2.0)) && parseFloat("1.0") == Some(Finite(1.0))
    requires AcceptedFrom(cc, row, parseFloat, name, point)
    ensures point.byteCount == 2
    ensures point.scale == AdjustScale(Finite(1.0), PyStrip(Cell(row, UnitColumn, "").value), point.unit)
  {
    DefaultTextsStripped();
    assert StrippedCell(row, LengthColumn, "2") == Some("2");
    assert StrippedCell(row, ScaleColumn, "1.0") == Some("1.0");
  }

  /** The default texts have no surrounding space. */
  lemma DefaultTextsStripped()
    ensures PyStrip("2") == "2" && PyStrip("1.0") == "1.0"
  {
    TrimByNoSpaceEnds("2", IsPySpace);
    TrimByNoSpaceEnds("1.0", IsPySpace);
  }

  /** Converting a stripped unit is converting the unit. */
  lemma ConvertUnitStripped(s: string)
    ensures ConvertUnit(PyStrip(s)) == ConvertUnit(s)
  {
    TrimIdempotentPy(s);
  }

  /** Stripping twice is stripping once. */
  lemma TrimIdempotentPy(s: string)
    ensures PyStrip(PyStrip(s)) == PyStrip(s)
  {
    var t := PyStrip(s);
    if |t| > 0 {
      TrimByNoSpaceEnds(t, IsPySpace);
    }
  }

  /** Whether an entry is stored under `name`. */
  function NameIs(name: string): ((string, Point)) -> bool
  {
    (e: (string, Point)) => e.0 == name
  }

  /** `pointmap['points'][name] = point`: an existing name keeps its place and takes the new point; a new name is appended. */
  function Upsert(points: seq<(string, Point)>, name: string, point: Point): (r: seq<(string, Point)>)
    ensures (exists k :: 0 <= k < |points| && points[k].0 == name) ==> |r| == |points|
    ensures (forall k :: 0 <= k < |points| ==> points[k].0 != name) ==> r == points + [(name, point)]
    ensures forall k :: 0 <= k < |points| && points[k].0 != name ==> r[k] == points[k]
    ensures forall k :: 0 <= k < |points| && points[k].0 == name && (forall j :: 0 <= j < k ==> points[j].0 != name) ==>
      r[k] == (name, point)
  {
    match IndexWhere(points, NameIs(name))
    case None => points + [(name, point)]
    case Some(i) => points[i := (name, point)]
  }

  predicate DistinctNames(points: seq<(string, Point)>)
  {
    forall i, j :: 0 <= i < j < |points| ==> points[i].0 != points[j].0
  }

  /** The point stored under `name`, if any. */
  function Lookup(points: seq<(string, Point)>, name: string): Option<Point>
  {
    match IndexWhere(points, NameIs(name))
    case None => None
    case Some(i) => Some(points[i].1)
  }

  /** The result of the row loop: the points, or an exception that left it (and the script exits with an error). */
  datatype ImportResult = Completed(points: seq<(string, Point)>) | Aborted

  /** The outcome of every row under `parse`, in file order. */
  function Outcomes(rows: seq<Row>, parse: Row -> RowOutcome): (r: seq<RowOutcome>)
    ensures |r| == |rows|
    ensures forall i {:trigger r[i]} :: 0 <= i < |rows| ==> r[i] == parse(rows[i])
  {
    seq(|rows|, i requires 0 <= i < |rows| => parse(rows[i]))
  }

  /** The row parser of one file: `ParseRow` with the file's character classes and float parser. */
  function RowParser(cc: CharClasses, parseFloat: string -> Option<PyFloat>): Row -> RowOutcome
  {
    row => ParseRow(cc, row, parseFloat)
  }

  /** The result after the row outcomes `outcomes`, in file order. */
  function Fold(outcomes: seq<RowOutcome>): ImportResult
  {
    if |outcomes| == 0 then Completed([])
    else Absorb(Fold(outcomes[..|outcomes| - 1]), outcomes[|outcomes| - 1])
  }

  /** The result after the rows `rows`, in file order. */
  function Imported(cc: CharClasses, rows: seq<Row>, parseFloat: string -> Option<PyFloat>): ImportResult
  {
    Fold(Outcomes(rows, RowParser(cc, parseFloat)))
  }

  /** The result after one more row: an accepted row is upserted, a raising one aborts, any other leaves the points. */
  function Absorb(sofar: ImportResult, outcome: RowOutcome): ImportResult
  {
    match sofar
    case Aborted => Aborted
    case Completed(points) =>
      match outcome
      case Accepted(name, point) => Completed(Upsert(points, name, point))
      case Raised => Aborted
      case _ => sofar
  }

  /** Folding one more outcome absorbs it. */
  lemma FoldStep(outcomes: seq<RowOutcome>, outcome: RowOutcome)
    ensures Fold(outcomes + [outcome]) == Absorb(Fold(outcomes), outcome)
  {
    var all := outcomes + [outcome];
    assert all[..|all| - 1] == outcomes;
  }

  /** Importing one more row absorbs its outcome. */
  lemma ImportedStep(cc: CharClasses, rows: seq<Row>, row: Row, parseFloat: string -> Option<PyFloat>)
    ensures Imported(cc, rows + [row], parseFloat) == Absorb(Imported(cc, rows, parseFloat), ParseRow(cc, row, parseFloat))
  {
    var before := Outcomes(rows, RowParser(cc, parseFloat));
    var after := Outcomes(rows + [row], RowParser(cc, parseFloat));
    assert after == before + [ParseRow(cc, row, parseFloat)] by {
      assert forall i :: 0 <= i < |rows| ==> after[i] == before[i];
      assert after[|rows|] == ParseRow(cc, row, parseFloat);
    }
    FoldStep(before, ParseRow(cc, row, parseFloat));
  }

  /** A fold aborts exactly when one of its outcomes raises. */
  lemma {:induction false} FoldAbortedIff(outcomes: seq<RowOutcome>)
    ensures Fold(outcomes).Aborted? <==> exists i :: 0 <= i < |outcomes| && outcomes[i].Raised?
  {
    if |outcomes| > 0 {
      var init := outcomes[..|outcomes| - 1];
      FoldAbortedIff(init);
      assert forall i :: 0 <= i < |init| ==> init[i] == outcomes[i];
      if !outcomes[|outcomes| - 1].Raised? && exists i :: 0 <= i < |outcomes| && outcomes[i].Raised? {
        var i :| 0 <= i < |outcomes| && outcomes[i].Raised?;
        assert i < |init| && init[i].Raised?;
      }
    }
  }

  /** The import is aborted exactly when one of its rows raises: skipped and rejected rows never end it. */
  lemma AbortedIffRowRaises(cc: CharClasses, rows: seq<Row>, parseFloat: string -> Option<PyFloat>)
    ensures Imported(cc, rows, parseFloat).Aborted? <==> exists i :: 0 <= i < |rows| && ParseRow(cc, rows[i], parseFloat).Raised?
  {
    var outcomes := Outcomes(rows, RowParser(cc, parseFloat));
    FoldAbortedIff(outcomes);
    if exists i :: 0 <= i < |rows| && ParseRow(cc, rows[i], parseFloat).Raised? {
      var i :| 0 <= i < |rows| && ParseRow(cc, rows[i], parseFloat).Raised?;
      assert outcomes[i].Raised?;
    }
  }

  /** Once a prefix of the outcomes has aborted the fold, the whole fold is aborted. */
  lemma {:induction false} FoldAbortedPrefix(outcomes: seq<RowOutcome>, i: nat)
    requires i <= |outcomes| && Fold(outcomes[..i]).Aborted?
    ensures Fold(outcomes).Aborted?
    decreases |outcomes| - i
  {
    if i == |outcomes| {
      assert outcomes[..i] == outcomes;
    } else {
      assert outcomes[..i + 1] == outcomes[..i] + [outcomes[i]];
      FoldStep(outcomes[..i], outcomes[i]);
      FoldAbortedPrefix(outcomes, i + 1);
    }
  }

  /** One step of the row loop: the next outcome is absorbed into the points so far. */
  lemma FoldNext(outcomes: seq<RowOutcome>, i: nat, points: seq<(string, Point)>)
    requires i < |outcomes| && Fold(outcomes[..i]) == Completed(points)
    ensures Fold(outcomes[..i + 1]) == Absorb(Completed(points), outcomes[i])
  {
    assert outcomes[..i + 1] == outcomes[..i] + [outcomes[i]];
    FoldStep(outcomes[..i], outcomes[i]);
  }

  /** Upserting keeps names distinct. */
  lemma UpsertDistinct(points: seq<(string, Point)>, name: string, point: Point)
    requires DistinctNames(points)
    ensures DistinctNames(Upsert(points, name, point))
  {
    var r := Upsert(points, name, point);
    if exists k :: 0 <= k < |points| && points[k].0 == name {
      assert forall k :: 0 <= k < |points| ==> r[k].0 == points[k].0;
    }
  }

  /** Upserting makes the name lead to the new point. */
  lemma UpsertLookup(points: seq<(string, Point)>, name: string, point: Point)
    ensures Lookup(Upsert(points, name, point), name) == Some(point)
  {
    var r := Upsert(points, name, point);
    match IndexWhere(points, NameIs(name))
    case None =>
      IndexWhereAt(r, NameIs(name), |points|);
    case Some(i) =>
      IndexWhereAt(r, NameIs(name), i);
  }

  /** A completed fold holds every name once. */
  lemma {:induction false} FoldDistinct(outcomes: seq<RowOutcome>)
    ensures Fold(outcomes).Completed? ==> DistinctNames(Fold(outcomes).points)
  {
    if |outcomes| > 0 {
      var before := Fold(outcomes[..|outcomes| - 1]);
      FoldDistinct(outcomes[..|outcomes| - 1]);
      match outcomes[|outcomes| - 1]
      case Accepted(name, point) =>
        if before.Completed? {
          UpsertDistinct(before.points, name, point);
        }
      case _ =>
    }
  }

  /** Every name occurs once in the imported points. */
  lemma ImportedDistinct(cc: CharClasses, rows: seq<Row>, parseFloat: string -> Option<PyFloat>)
    ensures Imported(cc, rows, parseFloat).Completed? ==> DistinctNames(Imported(cc, rows, parseFloat).points)
  {
    FoldDistinct(Outcomes(rows, RowParser(cc, parseFloat)));
  }

  /**
   * A later row with the same cleaned name overwrites the earlier point; a
   * skipped or rejected row changes nothing; a raising row aborts.
   */
  lemma LastRowWins(cc: CharClasses, rows: seq<Row>, row: Row, parseFloat: string -> Option<PyFloat>)
    requires Imported(cc, rows, parseFloat).Completed?
    ensures ParseRow(cc, row, parseFloat).Accepted? ==>
      Imported(cc, rows + [row], parseFloat).Completed?
      && Lookup(Imported(cc, rows + [row], parseFloat).points, ParseRow(cc, row, parseFloat).name)
         == Some(ParseRow(cc, row, parseFloat).point)
    ensures ParseRow(cc, row, parseFloat).Skipped? || ParseRow(cc, row, parseFloat).Rejected? ==>
      Imported(cc, rows + [row], parseFloat) == Imported(cc, rows, parseFloat)
    ensures ParseRow(cc, row, parseFloat).Raised? ==> Imported(cc, rows + [row], parseFloat).Aborted?
  {
    ImportedStep(cc, rows, row, parseFloat);
    var outcome := ParseRow(cc, row, parseFloat);
    if outcome.Accepted? {
      UpsertLookup(Imported(cc, rows, parseFloat).points, outcome.name, outcome.point);
    }
  }

  /** The row loop of `parse_csv_to_pointmap`, parsing one row at a time and filling the points until a row raises. */
  method ImportRows(rows: seq<Row>, parse: Row -> RowOutcome) returns (result: ImportResult)
    ensures result == Fold(Outcomes(rows, parse))
    ensures result.Completed? ==> DistinctNames(result.points)
  {
    ghost var outcomes := Outcomes(rows, parse);
    var points := [];
    var i := 0;
    while i < |rows|
      invariant 0 <= i <= |rows|
      invariant Fold(outcomes[..i]) == Completed(points)
    {
      var outcome := parse(rows[i]);
      FoldNext(outcomes, i, points);
      if outcome.Raised? {
        FoldAbortedPrefix(outcomes, i + 1);
        return Aborted;
      }
      if outcome.Accepted? {
        points := Upsert(points, outcome.name, outcome.point);
      }
      i := i + 1;
    }
    assert outcomes[..i] == outcomes;
    FoldDistinct(outcomes);
    result := Completed(points);
  }

  /** The points a file's rows give, or the exception that ended the loop. */
  method ParsePoints(cc: CharClasses, rows: seq<Row>, parseFloat: string -> Option<PyFloat>) returns (result: ImportResult)
    ensures result == Imported(cc, rows, parseFloat)
    ensures result.Completed? ==> DistinctNames(result.points)
  {
    result := ImportRows(rows, RowParser(cc, parseFloat));
  }

  /** The first 1024 characters of the file. */
  function Sample(text: string): (r: string)
    ensures |r| <= 1024 && |r| <= |text| && text[..|r|] == r
  {
    if |text| <= 1024 then text else text[..1024]
  }

  /** The delimiter: ';' exactly when the sample holds more semicolons than commas. */
  function Delimiter(text: string): (d: char)
    ensures d == ';' <==> CountChar(Sample(text), ';') > CountChar(Sample(text), ',')
    ensures d == ';' || d == ','
  {
    if CountChar(Sample(text), ';') > CountChar(Sample(text), ',') then ';' else ','
  }

  datatype Category = Voltage | Current | Power | Energy | Frequency | Other

  /** Whether a point's unit or lower-cased description marks it as a voltage. */
  predicate VoltageHint(p: Point)
  {
    p.unit == "V" || Contains(Lower(p.description), "gerilim") || Contains(Lower(p.description), "voltage")
  }

  /** Whether a point's unit or lower-cased description marks it as a current. */
  predicate CurrentHint(p: Point)
  {
    p.unit == "A" || Contains(Lower(p.description), "ak\U{0131}m") || Contains(Lower(p.description), "current")
  }

  /** Whether a point's unit or lower-cased description marks it as a power. */
  predicate PowerHint(p: Point)
  {
    p.unit in ["kW", "kVar", "kVA", "W", "var", "VA"]
    || Contains(Lower(p.description), "g\U{00FC}\U{00E7}") || Contains(Lower(p.description), "power")
  }

  /** Whether a point's unit or lower-cased description marks it as an energy. */
  predicate EnergyHint(p: Point)
  {
    p.unit == "kWh" || Contains(Lower(p.description), "enerji") || Contains(Lower(p.description), "energy")
  }

  /** Whether a point's unit or lower-cased description marks it as a frequency. */
  predicate FrequencyHint(p: Point)
  {
    p.unit == "Hz" || Contains(Lower(p.description), "frekans") || Contains(Lower(p.description), "frequency")
  }

  /**
   * The preview category of a point: the first of voltage, current, power,
   * energy and frequency whose hint it carries, and Other when it carries
   * none.
   */
  function CategoryOf(p: Point): (c: Category)
    ensures c == Voltage <==> VoltageHint(p)
    ensures c == Current <==> !VoltageHint(p) && CurrentHint(p)
    ensures c == Power <==> !VoltageHint(p) && !CurrentHint(p) && PowerHint(p)
    ensures c == Energy <==> !VoltageHint(p) && !CurrentHint(p) && !PowerHint(p) && EnergyHint(p)
    ensures c == Frequency <==> !VoltageHint(p) && !CurrentHint(p) && !PowerHint(p) && !EnergyHint(p) && FrequencyHint(p)
    ensures c == Other <==> !VoltageHint(p) && !CurrentHint(p) && !PowerHint(p) && !EnergyHint(p) && !FrequencyHint(p)
    ensures c == Other ==> p.unit !in {"V", "A", "kW", "kVar", "kVA", "W", "var", "VA", "kWh", "Hz"}
  {
    if VoltageHint(p) then Voltage
    else if CurrentHint(p) then Current
    else if PowerHint(p) then Power
    else if EnergyHint(p) then Energy
    else if FrequencyHint(p) then Frequency
    else Other
  }

  /** How many of the points fall into category `c`. */
  function CountIn(points: seq<(string, Point)>, c: Category): (n: nat)
    ensures n <= |points|
  {
    if |points| == 0 then 0
    else (if CategoryOf(points[0].1) == c then 1 else 0) + CountIn(points[1..], c)
  }

  /** Every point lands in exactly one category, so the six counts add up to the total. */
  lemma {:induction false} CategoriesPartition(points: seq<(string, Point)>)
    ensures CountIn(points, Voltage) + CountIn(points, Current) + CountIn(points, Power)
      + CountIn(points, Energy) + CountIn(points, Frequency) + CountIn(points, Other) == |points|
  {
    if |points| > 0 {
      CategoriesPartition(points[1..]);
    }
  }
}
