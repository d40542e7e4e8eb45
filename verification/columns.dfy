/**
 * The organization table's column layout and its pure cell formatters.
 */
module Columns {
  import opened Wrappers
  import opened Strings
  import opened Numbers
  import opened Entities

  /** `type?.replace("_", " ").toLowerCase() || "-"`: a missing or empty type shows "-". */
  function FormatOrganizationType(t: Option<string>): (r: string)
    ensures r == "-" <==> t == None || t.value == [] || t.value == "-"
    ensures t.Some? && t.value != [] ==> |r| == |t.value|
    ensures t.Some? && t.value != [] ==>
      forall i :: 0 <= i < |r| ==> r[i] == (if i == IndexOf(t.value, '_') then ' ' else LowerChar(t.value[i]))
  {
    if t == None then "-"
    else
      var shown := ToLower(ReplaceFirst(t.value, '_', ' '));
      if shown == [] then "-" else shown
  }

  /** Only the first underscore becomes a space; every later one is kept. */
  lemma OnlyFirstUnderscoreReplaced(s: string)
    requires IndexOf(s, '_') < |s|
    ensures forall i :: IndexOf(s, '_') < i < |s| && s[i] == '_' ==> FormatOrganizationType(Some(s))[i] == '_'
  {
  }

  /** The shown text of one type, given where its first underscore is. */
  lemma {:induction false} TypeCellText(s: string, k: nat, shown: string)
    requires 0 < |s| == |shown| && k <= |s|
    requires k < |s| ==> s[k] == '_'
    requires forall i :: 0 <= i < k ==> s[i] != '_'
    requires forall i :: 0 <= i < |s| ==> shown[i] == (if i == k then ' ' else LowerChar(s[i]))
    ensures FormatOrganizationType(Some(s)) == shown
  {
    if k < |s| {
      IndexOfFirst(s, '_', k);
    } else {
      assert IndexOf(s, '_') == |s|;
    }
  }

  // The five enum values as the type column shows them.

  /** No underscore: the name is only lowercased. */
  lemma CommercialTypeCell()
    ensures FormatOrganizationType(Some(COMMERCIAL.Value())) == "commercial"
  {
    TypeCellText("COMMERCIAL", 10, "commercial");
  }

  /** No underscore: the name is only lowercased. */
  lemma PublicTypeCell()
    ensures FormatOrganizationType(Some(PUBLIC.Value())) == "public"
  {
    TypeCellText("PUBLIC", 6, "public");
  }

  /** No underscore: the name is only lowercased. */
  lemma GovernmentTypeCell()
    ensures FormatOrganizationType(Some(GOVERNMENT.Value())) == "government"
  {
    TypeCellText("GOVERNMENT", 10, "government");
  }

  /** Only the first underscore becomes a space. */
  lemma PrivateLimitedCompanyTypeCell()
    ensures FormatOrganizationType(Some(PRIVATE_LIMITED_COMPANY.Value())) == "private limited_company"
  {
    TypeCellText("PRIVATE_LIMITED_COMPANY", 7, "private limited_company");
  }

  /** Only the first underscore becomes a space. */
  lemma OpenJointStockCompanyTypeCell()
    ensures FormatOrganizationType(Some(OPEN_JOINT_STOCK_COMPANY.Value())) == "open joint_stock_company"
  {
    TypeCellText("OPEN_JOINT_STOCK_COMPANY", 4, "open joint_stock_company");
  }

  /** The text of a pair of coordinates: `(x; y)`. */
  function CoordinatesText(x: int, y: int): string {
    "(" + IntToString(x) + "; " + IntToString(y) + ")"
  }

  /** The first ';' closes the x part, and the y part runs from after "; " to the closing parenthesis. */
  lemma CoordinatesTextParts(x: int, y: int)
    ensures var r := CoordinatesText(x, y);
      && r[0] == '(' && r[|r| - 1] == ')'
      && IndexOf(r, ';') == 1 + |IntToString(x)|
      && r[1..IndexOf(r, ';')] == IntToString(x)
      && r[IndexOf(r, ';') + 2..|r| - 1] == IntToString(y)
  {
    var xs, ys := IntToString(x), IntToString(y);
    var r := CoordinatesText(x, y);
    var k := 1 + |xs|;
    NoSemicolon(x);
    assert r[k] == ';';
    forall i | 0 <= i < k ensures r[i] != ';' {
      if i > 0 {
        assert r[i] == xs[i - 1];
      }
    }
    IndexOfFirst(r, ';', k);
    assert r[1..k] == xs;
    assert r[k + 2..|r| - 1] == ys;
  }

  lemma NoSemicolon(n: int)
    ensures forall i :: 0 <= i < |IntToString(n)| ==> IntToString(n)[i] != ';'
  {
    var d := NatToDigits(if n < 0 then -n else n);
    assert forall i :: 0 <= i < |d| ==> IsDigit(d[i]);
  }

  /** When `s[k] == c` and no earlier character is `c`, `k` is the first index of `c`. */
  lemma {:induction false} IndexOfFirst(s: string, c: char, k: nat)
    requires k < |s| && s[k] == c
    requires forall i :: 0 <= i < k ==> s[i] != c
    ensures IndexOf(s, c) == k
  {
    if k > 0 {
      IndexOfFirst(s[1..], c, k - 1);
    }
  }

  /** The number text is that of an integer, so the cell reads back as the pair it shows. */
  lemma CoordinatesTextReadsBack(x: int, y: int)
    ensures var r := CoordinatesText(x, y);
      && IndexOf(r, ';') + 2 <= |r| - 1
      && ParseInt(r[1..IndexOf(r, ';')]) == Some(x) && ParseInt(r[IndexOf(r, ';') + 2..|r| - 1]) == Some(y)
  {
    CoordinatesTextParts(x, y);
    ParseIntOfIntToString(x);
    ParseIntOfIntToString(y);
  }

  /** Different coordinates never show the same text. */
  lemma CoordinatesTextInjective(x1: int, y1: int, x2: int, y2: int)
    requires CoordinatesText(x1, y1) == CoordinatesText(x2, y2)
    ensures x1 == x2 && y1 == y2
  {
    CoordinatesTextReadsBack(x1, y1);
    CoordinatesTextReadsBack(x2, y2);
  }

  /** The coordinates cell: "-" for a missing value, else `(x; y)`. */
  function CoordinatesCell(c: Coordinates?): (r: string)
    reads c
    ensures c == null ==> r == "-"
    ensures c != null ==> r == CoordinatesText(c.x, c.y) && r != "-"
  {
    if c == null then "-" else CoordinatesText(c.x, c.y)
  }

  /** The text of an address: `street:zip`. */
  function AddressText(street: string, zip: string): (r: string)
    ensures |r| == |street| + 1 + |zip|
    ensures r[..|street|] == street && r[|street|] == ':' && r[|street| + 1..] == zip
  {
    street + ":" + zip
  }

  /** A street without ':' can be split back off at the first ':'. */
  lemma AddressTextSplits(street: string, zip: string)
    requires forall i :: 0 <= i < |street| ==> street[i] != ':'
    ensures var r := AddressText(street, zip);
      IndexOf(r, ':') == |street| && r[..IndexOf(r, ':')] == street && r[IndexOf(r, ':') + 1..] == zip
  {
    var r := AddressText(street, zip);
    IndexOfFirst(r, ':', |street|);
  }

  /** A street containing ':' makes the cell ambiguous: two different addresses can show the same text. */
  lemma AddressTextAmbiguous()
    ensures AddressText("a:b", "c") == AddressText("a", "b:c")
  {
  }

  /** The address cell, shared by the address and postal address columns: "-" for a missing value. */
  function AddressCell(a: Address?): (r: string)
    reads a
    ensures a == null ==> r == "-"
    ensures a != null ==> r == AddressText(a.street, a.zip)
  {
    if a == null then "-" else AddressText(a.street, a.zip)
  }

  /** How a column renders its value. */
  datatype CellKind = PlainCell | CreationDateCell | AnnualTurnoverCell | TypeCell | CoordinatesCellKind | AddressCellKind

  datatype Column = Column(accessorKey: string, header: string, size: Option<nat>, cell: CellKind)

  /** The organization fields in the table's column order. */
  const FieldOrder: seq<string> := ["id", "name", "creationDate", "annualTurnover", "employeesCount",
    "rating", "fullName", "type", "coordinates", "address", "postalAddress", "ownerId"]

  /** The column headers, in the same order as the fields. */
  const Headers: seq<string> := ["ID", "Name", "Creation Date", "Annual Turnover", "Employees Count",
    "Rating", "Full Name", "Type", "Coordinates", "Address", "Postal Address", "Owner"]

  /** The formatter a field is shown with; a field without one is shown as its plain value. */
  function FormatterOf(field: string): CellKind {
    match field
    case "creationDate" => CreationDateCell
    case "annualTurnover" => AnnualTurnoverCell
    case "type" => TypeCell
    case "coordinates" => CoordinatesCellKind
    case "address" => AddressCellKind
    case "postalAddress" => AddressCellKind
    case _ => PlainCell
  }

  function CreateColumns(): (r: seq<Column>)
    ensures |r| == |FieldOrder| == |Headers|
    ensures forall i :: 0 <= i < |r| ==> r[i].accessorKey == FieldOrder[i] && r[i].header == Headers[i]
    ensures forall i :: 0 <= i < |r| ==> r[i].cell == FormatterOf(r[i].accessorKey)
    ensures r[0].size == Some(80) && forall i :: 1 <= i < |r| ==> r[i].size == None
    ensures forall i :: 0 <= i < |r| ==> (r[i].cell == AddressCellKind <==> i == 9 || i == 10)
    ensures r[7].cell == TypeCell && r[8].cell == CoordinatesCellKind
  {
    [ Column("id", "ID", Some(80), PlainCell),
      Column("name", "Name", None, PlainCell),
      Column("creationDate", "Creation Date", None, CreationDateCell),
      Column("annualTurnover", "Annual Turnover", None, AnnualTurnoverCell),
      Column("employeesCount", "Employees Count", None, PlainCell),
      Column("rating", "Rating", None, PlainCell),
      Column("fullName", "Full Name", None, PlainCell),
      Column("type", "Type", None, TypeCell),
      Column("coordinates", "Coordinates", None, CoordinatesCellKind),
      Column("address", "Address", None, AddressCellKind),
      Column("postalAddress", "Postal Address", None, AddressCellKind),
      Column("ownerId", "Owner", None, PlainCell) ]
  }

  /** Twelve columns, one per organization field, each field shown once, ending in the owner. */
  lemma ColumnsCoverFieldsOnce()
    ensures |CreateColumns()| == 12 && CreateColumns()[11].accessorKey == "ownerId"
    ensures forall i, j :: 0 <= i < j < 12 ==> CreateColumns()[i].accessorKey != CreateColumns()[j].accessorKey
  {
    var keys := FieldOrder;
    assert forall i :: 0 <= i < 12 ==> |keys[i]| == [2, 4, 12, 14, 14, 6, 8, 4, 11, 7, 13, 7][i];
    assert keys[3][0] != keys[4][0] && keys[1][0] != keys[7][0] && keys[9][0] != keys[11][0];
  }
}
