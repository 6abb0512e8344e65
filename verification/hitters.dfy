/** Mapping a raw hitter row onto the fixed 23-column schema (first_present, fmt3, normalize_hitter). */
module Hitters {
  import opened Basics
  import opened Json

  /** HITTER_COLS: the output columns, in output order. */
  const HitterCols: seq<string> :=
    ["Bats", "Name", "Age", "Team", "Season", "G", "AB", "PA", "H", "2B", "3B", "HR",
     "R", "RBI", "BB", "SO", "HBP", "SB", "CS", "AVG", "OBP", "SLG", "OPS"]

  /** A normalized row keeps its column order, so it is a list of pairs rather than a map. */
  type HitterRow = seq<(string, Value)>

  /**
   * The first candidate key that exists in the row decides the value, whatever that value is
   * (null, "", 0 and false included); only when no candidate exists is the result "".
   */
  function FirstPresent(row: Row, keys: seq<string>): (r: Value)
    ensures (forall i :: 0 <= i < |keys| ==> keys[i] !in row) ==> r == Str("")
    ensures (exists i :: 0 <= i < |keys| && keys[i] in row) ==>
              exists i :: 0 <= i < |keys| && keys[i] in row && r == row[keys[i]]
                          && forall j :: 0 <= j < i ==> keys[j] !in row
  {
    if keys == [] then Str("")
    else if keys[0] in row then row[keys[0]]
    else
      var r := FirstPresent(row, keys[1..]);
      assert forall i :: 1 <= i < |keys| ==> keys[i] == keys[1..][i - 1];
      r
  }

  /**
   * Python's float conversion and ".3f" formatting, which the model does not interpret:
   * `ofStr` is float(str) (None when it raises), `ofInt` is float(int) (None on overflow),
   * `fixed3` is f"{x:.3f}".
   */
  datatype FloatConv = FloatConv(ofStr: string -> Option<real>, ofInt: int -> Option<real>, fixed3: real -> string)

  /** float(v), or None where Python raises. */
  function ToFloat(v: Value, conv: FloatConv): Option<real>
  {
    match v
    case Null => None
    case Bool(b) => Some(if b then 1.0 else 0.0)
    case Int(i) => conv.ofInt(i)
    case Float(x) => Some(x)
    case Str(s) => conv.ofStr(s)
    case List(_) => None
    case Object(_) => None
  }

  /** fmt3: blanks stay blank, numbers become 3-decimal text, everything else passes unchanged. */
  function Fmt3(v: Value, conv: FloatConv): (r: Value)
    ensures v == Null || v == Str("") ==> r == Str("")
    ensures r == v || r.Str?
    ensures v.List? || v.Object? ==> r == v
    ensures v != Str("") && v.Str? && conv.ofStr(v.s).None? ==> r == v
    ensures v.Float? ==> r == Str(conv.fixed3(v.x))
    ensures v.Bool? ==> r == Str(conv.fixed3(if v.b then 1.0 else 0.0))
    ensures v.Int? && conv.ofInt(v.i).Some? ==> r == Str(conv.fixed3(conv.ofInt(v.i).value))
    ensures v.Int? && conv.ofInt(v.i).None? ==> r == v
    ensures v.Str? && v != Str("") && conv.ofStr(v.s).Some? ==> r == Str(conv.fixed3(conv.ofStr(v.s).value))
  {
    if v == Null || v == Str("") then Str("")
    else match ToFloat(v, conv)
      case Some(x) => Str(conv.fixed3(x))
      case None => v
  }

  /** One assignment `mapped[name] = first_present(row, aliases)`, optionally through fmt3. */
  datatype Column = Column(name: string, aliases: seq<string>, rate: bool)

  /** The assignments of normalize_hitter, in the order the function makes them. */
  const Columns: seq<Column> := [
    Column("Bats", ["Bats", "Bat", "B"], false),
    Column("Name", ["Name", "Player", "playerName", "PlayerName"], false),
    Column("Age", ["Age"], false),
    Column("Team", ["Team", "Tm", "TeamName", "AbbName"], false),
    Column("Season", ["Season", "season", "Year"], false),
    Column("G", ["G", "Games"], false),
    Column("AB", ["AB"], false),
    Column("PA", ["PA"], false),
    Column("H", ["H", "Hits"], false),
    Column("2B", ["2B", "Doubles"], false),
    Column("3B", ["3B", "Triples"], false),
    Column("HR", ["HR", "HomeRuns"], false),
    Column("R", ["R", "Runs"], false),
    Column("RBI", ["RBI"], false),
    Column("BB", ["BB"], false),
    Column("SO", ["SO", "K", "Ks"], false),
    Column("HBP", ["HBP"], false),
    Column("SB", ["SB"], false),
    Column("CS", ["CS"], false),
    Column("AVG", ["AVG", "BA", "Avg"], true),
    Column("OBP", ["OBP"], true),
    Column("SLG", ["SLG"], true),
    Column("OPS", ["OPS"], true)
  ]

  function Resolve(row: Row, col: Column, conv: FloatConv): Value
  {
    var v := FirstPresent(row, col.aliases);
    if col.rate then Fmt3(v, conv) else v
  }

  /** The `mapped` dict after all assignments. */
  function Mapped(row: Row, conv: FloatConv): map<string, Value>
  {
    FromPairs(seq(|Columns|, i requires 0 <= i < |Columns| => (Columns[i].name, Resolve(row, Columns[i], conv))))
  }

  /** Each assignment survives into `mapped`: no later one overwrites it. */
  lemma MappedAt(row: Row, conv: FloatConv, i: nat)
    requires i < |Columns|
    ensures Columns[i].name in Mapped(row, conv) && Mapped(row, conv)[Columns[i].name] == Resolve(row, Columns[i], conv)
  {
    var pairs := seq(|Columns|, i requires 0 <= i < |Columns| => (Columns[i].name, Resolve(row, Columns[i], conv)));
    ColumnNames();
    ColumnsDistinct();
    assert DistinctKeys(pairs) by {
      forall j, k | 0 <= j < k < |pairs| ensures pairs[j].0 != pairs[k].0 {
        assert pairs[j].0 == HitterCols[j] && pairs[k].0 == HitterCols[k];
      }
    }
    FromPairsAt(pairs, i);
  }

  /** Column i of the projection is the value assigned to column i. */
  lemma ProjectedAt(row: Row, conv: FloatConv, i: nat)
    requires i < |Columns|
    ensures i < |Project(Mapped(row, conv))| && Project(Mapped(row, conv))[i].1 == Resolve(row, Columns[i], conv)
  {
    ColumnNames();
    MappedAt(row, conv, i);
  }

  /** `{k: mapped.get(k, "") for k in HITTER_COLS}`. */
  function Project(mapped: map<string, Value>): (r: HitterRow)
    ensures Keys(r) == HitterCols
  {
    seq(|HitterCols|, i requires 0 <= i < |HitterCols| =>
      (HitterCols[i], if HitterCols[i] in mapped then mapped[HitterCols[i]] else Str("")))
  }

  /** The assignments produce the output columns, in the same order. */
  lemma ColumnNames()
    ensures |Columns| == |HitterCols|
    ensures forall i :: 0 <= i < |Columns| ==> Columns[i].name == HitterCols[i]
  {
  }

  /** No output column is named twice. */
  lemma ColumnsDistinct()
    ensures forall i, j :: 0 <= i < j < |HitterCols| ==> HitterCols[i] != HitterCols[j]
  {
  }

  /** Every column is first looked up under its own name. */
  lemma ColumnAliasesStartWithName()
    ensures forall i :: 0 <= i < |Columns| ==> |Columns[i].aliases| >= 1 && Columns[i].aliases[0] == Columns[i].name
  {
  }

  /** Exactly the rate columns AVG, OBP, SLG, OPS go through fmt3. */
  lemma ColumnRates()
    ensures forall i :: 0 <= i < |Columns| ==> (Columns[i].rate <==> Columns[i].name in ["AVG", "OBP", "SLG", "OPS"])
  {
  }

  /** The assignments cover exactly the output columns, in the same order, each name once. */
  lemma ColumnsMatchSchema()
    ensures |Columns| == |HitterCols|
    ensures forall i :: 0 <= i < |Columns| ==> Columns[i].name == HitterCols[i]
    ensures forall i, j :: 0 <= i < j < |HitterCols| ==> HitterCols[i] != HitterCols[j]
    ensures forall i :: 0 <= i < |Columns| ==> |Columns[i].aliases| >= 1 && Columns[i].aliases[0] == Columns[i].name
    ensures forall i :: 0 <= i < |Columns| ==> (Columns[i].rate <==> HitterCols[i] in ["AVG", "OBP", "SLG", "OPS"])
  {
    ColumnNames();
    ColumnsDistinct();
    ColumnAliasesStartWithName();
    ColumnRates();
  }

  /**
   * normalize_hitter: exactly the columns of HITTER_COLS in order, whatever the row holds;
   * rate columns go through fmt3, the rest are copied, and a column none of whose aliases
   * is present is "".
   */
  function NormalizeHitter(row: Row, conv: FloatConv): (r: HitterRow)
    ensures Keys(r) == HitterCols
    ensures |r| == |Columns|
    ensures forall i :: 0 <= i < |r| && !Columns[i].rate ==> r[i].1 == FirstPresent(row, Columns[i].aliases)
    ensures forall i :: 0 <= i < |r| && Columns[i].rate ==> r[i].1 == Fmt3(FirstPresent(row, Columns[i].aliases), conv)
    ensures forall i :: 0 <= i < |r| && (forall a :: a in Columns[i].aliases ==> a !in row) ==> r[i].1 == Str("")
  {
    var r := Project(Mapped(row, conv));
    ColumnNames();
    forall i | 0 <= i < |Columns| ensures r[i].1 == Resolve(row, Columns[i], conv) {
      ProjectedAt(row, conv, i);
    }
    r
  }

  /** Adding a key that is no column's alias never changes what a lookup finds. */
  lemma {:induction false} FirstPresentIgnores(row: Row, keys: seq<string>, k: string, v: Value)
    requires k !in keys
    ensures FirstPresent(row[k := v], keys) == FirstPresent(row, keys)
  {
    if keys != [] && keys[0] !in row {
      FirstPresentIgnores(row, keys[1..], k, v);
    }
  }

  /** Extra upstream fields are invisible: the normalized row depends on the alias keys only. */
  lemma NormalizeHitterIgnores(row: Row, conv: FloatConv, k: string, v: Value)
    requires forall i :: 0 <= i < |Columns| ==> k !in Columns[i].aliases
    ensures NormalizeHitter(row[k := v], conv) == NormalizeHitter(row, conv)
  {
    var a, b := NormalizeHitter(row[k := v], conv), NormalizeHitter(row, conv);
    forall i | 0 <= i < |Columns| ensures a[i] == b[i] {
      FirstPresentIgnores(row, Columns[i].aliases, k, v);
      assert Keys(a)[i] == Keys(b)[i];
    }
  }

  /** Python's float() reads back what ".3f" wrote, to a number that prints the same. */
  ghost predicate StableFormat(conv: FloatConv)
  {
    forall x: real :: conv.ofStr(conv.fixed3(x)).Some? && conv.fixed3(conv.ofStr(conv.fixed3(x)).value) == conv.fixed3(x)
  }

  /** Formatting an already formatted value changes nothing. */
  lemma Fmt3Idempotent(v: Value, conv: FloatConv)
    requires StableFormat(conv)
    ensures Fmt3(Fmt3(v, conv), conv) == Fmt3(v, conv)
  {
    match ToFloat(v, conv)
    case Some(x) =>
      if v != Null && v != Str("") {
        assert conv.ofStr(conv.fixed3(x)).Some?;
      }
    case None =>
  }

  /** Reading a normalized row back as a dict, each column finds its own value under its own name. */
  lemma ReadBackAt(h: HitterRow, i: nat)
    requires Keys(h) == HitterCols && i < |h|
    ensures FirstPresent(FromPairs(h), Columns[i].aliases) == h[i].1
  {
    ColumnsMatchSchema();
    assert DistinctKeys(h) by {
      forall j, k | 0 <= j < k < |h| ensures h[j].0 != h[k].0 {
        assert Keys(h)[j] == HitterCols[j] && Keys(h)[k] == HitterCols[k];
      }
    }
    FromPairsAt(h, i);
    assert Keys(h)[i] == Columns[i].aliases[0];
  }

  /** Normalizing a normalized row (read back as a dict) gives the same row. */
  lemma NormalizeHitterIdempotent(row: Row, conv: FloatConv)
    requires StableFormat(conv)
    ensures NormalizeHitter(FromPairs(NormalizeHitter(row, conv)), conv) == NormalizeHitter(row, conv)
  {
    var h := NormalizeHitter(row, conv);
    var again := NormalizeHitter(FromPairs(h), conv);
    assert |again| == |Columns| == |h|;
    forall i | 0 <= i < |h| ensures again[i] == h[i] {
      NormalizeAgainAt(row, conv, i);
    }
  }

  /** Column i survives a second normalization unchanged. */
  lemma NormalizeAgainAt(row: Row, conv: FloatConv, i: nat)
    requires StableFormat(conv) && i < |Columns|
    ensures var h := NormalizeHitter(row, conv);
      NormalizeHitter(FromPairs(h), conv)[i] == h[i]
  {
    var h := NormalizeHitter(row, conv);
    var again := NormalizeHitter(FromPairs(h), conv);
    ReadBackAt(h, i);
    assert Keys(again)[i] == Keys(h)[i];
    if Columns[i].rate {
      Fmt3Idempotent(FirstPresent(row, Columns[i].aliases), conv);
    }
  }
}
