/**
 * The table molecule: the sort configuration a click on a column header toggles, the icon each
 * header shows, and the rows sorted by the chosen column. The rows are the page's records seen
 * as field name to value.
 */
module DataTable {

  import opened Wrappers
  import opened Text
  import opened Sorting

  /** A field value as the comparator sees it; a field the row lacks is `undefined`. */
  datatype Value = Str(s: string) | Num(n: int) | Undefined

  type Row = map<string, Value>

  datatype Direction = Asc | Desc

  /** `sortConfig`: no key at first, ascending. */
  datatype SortConfig = SortConfig(key: Option<string>, direction: Direction)

  const InitialConfig := SortConfig(None, Asc)

  datatype SortIcon = ChevronUpDown | ChevronUp | ChevronDown

  /** `row[key]`. */
  function FieldOf(row: Row, key: string): Value
  {
    if key in row then row[key] else Undefined
  }

  /**
   * `a < b` between two values of one kind: strings by UTF-16 code unit order, numbers by size. Any
   * comparison with `undefined` is false.
   */
  predicate Below(a: Value, b: Value)
  {
    match (a, b)
    case (Str(x), Str(y)) => LexLe(x, y) && x != y
    case (Num(x), Num(y)) => x < y
    case _ => false
  }

  /**
   * The comparator read as "a may stay before b" (it returns a value <= 0): ascending, unless
   * a's value is above b's; descending, unless it is below.
   */
  function StaysBefore(key: string, direction: Direction): (Row, Row) -> bool
  {
    (a: Row, b: Row) =>
      if direction == Asc then !Below(FieldOf(b, key), FieldOf(a, key)) else !Below(FieldOf(a, key), FieldOf(b, key))
  }

  /** `!sortConfig.key`: no key, or the empty key, which is falsy. */
  predicate NoKey(config: SortConfig)
  {
    config.key.None? || config.key == Some("")
  }

  /**
   * `sortedData`: the data itself while no key (or the empty key) is chosen; otherwise a sorted
   * copy. The copy has the same rows, each as often as before.
   */
  function SortedData(data: seq<Row>, config: SortConfig): (r: seq<Row>)
    ensures NoKey(config) ==> r == data
    ensures |r| == |data| && multiset(r) == multiset(data)
  {
    if NoKey(config) then data
    else SortBy(data, StaysBefore(config.key.value, config.direction))
  }

  /** Every row holds a number, or every row holds a string, under `key`. */
  predicate OneKindUnder(data: seq<Row>, key: string)
  {
    || (forall i :: 0 <= i < |data| ==> FieldOf(data[i], key).Num?)
    || (forall i :: 0 <= i < |data| ==> FieldOf(data[i], key).Str?)
  }

  /** Whether `a` comes no later than `b` when a column holds values of one kind. */
  predicate InOrder(a: Value, b: Value, direction: Direction)
  {
    match (a, b)
    case (Str(x), Str(y)) => if direction == Asc then LexLe(x, y) else LexLe(y, x)
    case (Num(x), Num(y)) => if direction == Asc then x <= y else y <= x
    case _ => true
  }

  lemma StaysBeforeIsInOrder(key: string, direction: Direction, a: Row, b: Row)
    requires FieldOf(a, key).Str? == FieldOf(b, key).Str? && FieldOf(a, key).Num? == FieldOf(b, key).Num?
    ensures StaysBefore(key, direction)(a, b) <==> InOrder(FieldOf(a, key), FieldOf(b, key), direction)
  {
    match (FieldOf(a, key), FieldOf(b, key))
    case (Str(x), Str(y)) =>
      LexLeTotal(x, y);
      if LexLe(x, y) && LexLe(y, x) {
        LexLeAntisymmetric(x, y);
      }
    case (Num(x), Num(y)) =>
    case (Undefined, Undefined) =>
  }

  /**
   * When the column holds values of one kind, the sorted copy is in ascending or descending
   * order of that column. (The empty key sorts nothing.)
   */
  lemma SortedDataIsOrdered(data: seq<Row>, key: string, direction: Direction)
    requires key != "" && OneKindUnder(data, key)
    ensures var r := SortedData(data, SortConfig(Some(key), direction));
      forall i, j :: 0 <= i < j < |r| ==> InOrder(FieldOf(r[i], key), FieldOf(r[j], key), direction)
  {
    var le := StaysBefore(key, direction);
    ComparatorIsConsistent(data, key, direction);
    SortBySorted(data, le);
    var r := SortBy(data, le);
    forall i, j | 0 <= i < j < |r|
      ensures InOrder(FieldOf(r[i], key), FieldOf(r[j], key), direction)
    {
      SortByMembers(data, le, r[i]);
      SortByMembers(data, le, r[j]);
      StaysBeforeIsInOrder(key, direction, r[i], r[j]);
    }
  }

  /** On a column of one kind the comparator is a consistent one. */
  lemma ComparatorIsConsistent(data: seq<Row>, key: string, direction: Direction)
    requires OneKindUnder(data, key)
    ensures TotalPreorderOn(data, StaysBefore(key, direction))
  {
    var le := StaysBefore(key, direction);
    forall a, b | a in data && b in data
      ensures le(a, b) || le(b, a)
    {
      StaysBeforeIsInOrder(key, direction, a, b);
      StaysBeforeIsInOrder(key, direction, b, a);
      InOrderTotal(FieldOf(a, key), FieldOf(b, key), direction);
    }
    forall a, b, c | a in data && b in data && c in data && le(a, b) && le(b, c)
      ensures le(a, c)
    {
      StaysBeforeIsInOrder(key, direction, a, b);
      StaysBeforeIsInOrder(key, direction, b, c);
      StaysBeforeIsInOrder(key, direction, a, c);
      InOrderTransitive(FieldOf(a, key), FieldOf(b, key), FieldOf(c, key), direction);
    }
  }

  /** Two rows compare equal exactly when they hold the same value under the key. */
  lemma TiesAreEqualValues(key: string, direction: Direction, a: Row, b: Row)
    requires FieldOf(a, key).Str? == FieldOf(b, key).Str? && FieldOf(a, key).Num? == FieldOf(b, key).Num?
    ensures StaysBefore(key, direction)(a, b) && StaysBefore(key, direction)(b, a) <==> FieldOf(a, key) == FieldOf(b, key)
  {
    if FieldOf(a, key).Str? {
      LexLeTotal(FieldOf(a, key).s, FieldOf(b, key).s);
    }
  }

  /**
   * The sort is stable: on a column of one kind, the rows holding the same value as any row
   * `p` appear in the sorted copy in the order they have in the data.
   */
  lemma SortedDataIsStable(data: seq<Row>, key: string, direction: Direction, p: Row)
    requires key != "" && OneKindUnder(data, key) && p in data
    ensures var le := StaysBefore(key, direction);
      EquivalentTo(SortedData(data, SortConfig(Some(key), direction)), p, le) == EquivalentTo(data, p, le)
    ensures forall a :: a in data ==>
      (StaysBefore(key, direction)(a, p) && StaysBefore(key, direction)(p, a) <==> FieldOf(a, key) == FieldOf(p, key))
  {
    ComparatorIsConsistent(data, key, direction);
    SortByStable(data, p, StaysBefore(key, direction));
    forall a | a in data
      ensures StaysBefore(key, direction)(a, p) && StaysBefore(key, direction)(p, a) <==> FieldOf(a, key) == FieldOf(p, key)
    {
      TiesAreEqualValues(key, direction, a, p);
    }
  }

  lemma InOrderTotal(a: Value, b: Value, direction: Direction)
    ensures InOrder(a, b, direction) || InOrder(b, a, direction)
  {
    if a.Str? && b.Str? {
      LexLeTotal(a.s, b.s);
    }
  }

  lemma InOrderTransitive(a: Value, b: Value, c: Value, direction: Direction)
    requires a.Str? == b.Str? == c.Str? && a.Num? == b.Num? == c.Num?
    requires InOrder(a, b, direction) && InOrder(b, c, direction)
    ensures InOrder(a, c, direction)
  {
    if a.Str? {
      if direction == Asc {
        LexLeTransitive(a.s, b.s, c.s);
      } else {
        LexLeTransitive(c.s, b.s, a.s);
      }
    }
  }

  /**
   * `handleSort(key)`: the same key clicked while ascending turns descending; any other click
   * sorts ascending by the clicked key.
   */
  function NextSortConfig(config: SortConfig, key: string): (r: SortConfig)
    ensures r.key == Some(key)
    ensures r.direction == Desc <==> config.key == Some(key) && config.direction == Asc
  {
    SortConfig(Some(key), if config.key == Some(key) && config.direction == Asc then Desc else Asc)
  }

  /**
   * After the first click on a column, clicks on it alternate the direction: three clicks leave
   * it as one did, and two clicks on a column sorted ascending bring it back there.
   */
  lemma ClicksAlternate(config: SortConfig, key: string)
    ensures NextSortConfig(NextSortConfig(NextSortConfig(config, key), key), key) == NextSortConfig(config, key)
    ensures config.key == Some(key) && config.direction == Asc ==>
      NextSortConfig(NextSortConfig(config, key), key) == config
    ensures NextSortConfig(config, key).direction != NextSortConfig(NextSortConfig(config, key), key).direction
  {
  }

  /** `getSortIcon(key)`: up-down for every column but the sort key; up or down by direction for it. */
  function SortIconOf(config: SortConfig, key: string): (r: SortIcon)
    ensures r == ChevronUpDown <==> config.key != Some(key)
    ensures r == ChevronUp <==> config.key == Some(key) && config.direction == Asc
    ensures r == ChevronDown <==> config.key == Some(key) && config.direction == Desc
  {
    if config.key != Some(key) then ChevronUpDown
    else match config.direction
      case Asc => ChevronUp
      case Desc => ChevronDown
  }

  /** The column just clicked always shows its direction, the others the neutral icon. */
  lemma ClickedColumnShowsDirection(config: SortConfig, key: string, other: string)
    requires other != key
    ensures SortIconOf(NextSortConfig(config, key), key) != ChevronUpDown
    ensures SortIconOf(NextSortConfig(config, key), other) == ChevronUpDown
  {
  }

  /** One table on a page: whether it may be sorted, and its sort configuration. */
  class Table {
    const sortable: bool
    var config: SortConfig

    constructor(sortable: bool)
      ensures this.sortable == sortable && config == InitialConfig
    {
      this.sortable := sortable;
      config := InitialConfig;
    }

    /** A header click: ignored when the table is not sortable. */
    method HandleSort(key: string)
      modifies this
      ensures sortable ==> config == NextSortConfig(old(config), key)
      ensures !sortable ==> config == old(config)
    {
      if !sortable {
        return;
      }
      config := NextSortConfig(config, key);
    }

    /** The rows as displayed. */
    function Displayed(data: seq<Row>): (r: seq<Row>)
      reads this
      ensures multiset(r) == multiset(data)
      ensures NoKey(config) ==> r == data
    {
      SortedData(data, config)
    }

    function Icon(key: string): (r: SortIcon)
      reads this
      ensures r == ChevronUpDown <==> config.key != Some(key)
    {
      SortIconOf(config, key)
    }
  }
}
