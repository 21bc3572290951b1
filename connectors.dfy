/** Connector updates: the [0, 100] range test on `parseInt(value, 10)` and
    the derivation of the long connector id
    `pc_<pluginId>_<id>|<item id>=<item value>...`. */
module Connectors {
  import opened Results
  import opened Json
  import opened Numbers
  import opened Shapes

  const CONNECTOR_PREFIX := "pc"

  /** The `|id=value` parts of the data items, in the caller's order. */
  function Suffix(items: seq<DataItem>): string
    decreases |items|
  {
    if items == [] then "" else "|" + items[0].id + "=" + items[0].value + Suffix(items[1..])
  }

  /** The suffix a connector's `data` contributes: none when it is not an array. */
  function DataStr(data: Option<seq<DataItem>>): string {
    if data.Some? then Suffix(data.value) else ""
  }

  /** The long id of a connector; a pure function of its inputs, so the same
      plugin id, connector id and data items in the same order always give
      the same string. */
  function LongConnectorId(pluginId: string, id: string, data: Option<seq<DataItem>>): string {
    CONNECTOR_PREFIX + "_" + pluginId + "_" + id + DataStr(data)
  }

  /** Two data items, in order, after the plugin and connector ids. */
  lemma LongIdExample()
    ensures LongConnectorId("p1", "vol", Some([DataItem("a", "1"), DataItem("b", "2")])) == "pc_p1_vol|a=1|b=2"
  {
  }

  lemma {:induction false} SuffixSnoc(items: seq<DataItem>, item: DataItem)
    ensures Suffix(items + [item]) == Suffix(items) + "|" + item.id + "=" + item.value
    decreases |items|
  {
    if items != [] {
      assert (items + [item])[1..] == items[1..] + [item];
      SuffixSnoc(items[1..], item);
    }
  }

  /** The `dataStr.concat('|', dataItem.id, '=', dataItem.value)` loop. */
  method BuildDataSuffix(data: Option<seq<DataItem>>) returns (dataStr: string)
    ensures dataStr == DataStr(data)
  {
    dataStr := "";
    if data.Some? {
      var items := data.value;
      var i := 0;
      while i < |items|
        invariant 0 <= i <= |items|
        invariant dataStr == Suffix(items[..i])
      {
        SuffixSnoc(items[..i], items[i]);
        assert items[..i + 1] == items[..i] + [items[i]];
        dataStr := dataStr + "|" + items[i].id + "=" + items[i].value;
        i := i + 1;
      }
      assert items[..i] == items;
    }
  }

  /** The range test of `buildConnectorUpdate`: the parsed value (`None`
      for NaN) when it is not below 0 or above 100. NaN compares false both
      ways, so a non-numeric value is let through. */
  function CheckValue(value: string): (r: Result<Option<int>>)
    ensures r.Ok? ==> r.value == ParseInt(value)
    ensures r.Ok? && r.value.Some? ==> 0 <= r.value.value <= 100
    ensures r.Err? ==> r.error.OutOfRange? && ParseInt(value) == Some(r.error.value)
    ensures r.Err? <==> ParseInt(value).Some? && !(0 <= ParseInt(value).value <= 100)
  {
    var n := ParseInt(value);
    if n.Some? && (n.value < 0 || n.value > 100) then Err(OutOfRange(n.value)) else Ok(n)
  }

  /** Every integer percentage written in decimal is accepted as itself. */
  lemma AcceptsPercentages(n: int)
    requires 0 <= n <= 100
    ensures CheckValue(IntToString(n)) == Ok(Some(n))
  {
    ParseIntOfIntToString(n);
  }

  /** A value with no digit after the leading white space and sign parses
      to NaN and is let through. */
  lemma AcceptsNonNumeric(value: string)
    requires LeadingDigits(Unsigned(TrimStart(value))) == []
    ensures CheckValue(value) == Ok(None)
  {
  }

  /** The range test on any text `parseInt` reads a number from: white
      space, an optional sign, digits (leading zeros allowed) and any text
      not starting with a digit. It passes the value when it lies in
      [0, 100] and rejects it with that value otherwise. */
  lemma RangeTestOnText(ws: string, sign: string, ds: string, tail: string)
    requires forall i :: 0 <= i < |ws| ==> IsJsWhiteSpace(ws[i])
    requires sign == "" || sign == "-" || sign == "+"
    requires ds != [] && AllDigits(ds)
    requires tail == [] || !IsDigit(tail[0])
    ensures var n: int := if sign == "-" then -(DigitsValue(ds) as int) else DigitsValue(ds);
      CheckValue(ws + sign + ds + tail) == if 0 <= n <= 100 then Ok(Some(n)) else Err(OutOfRange(n))
  {
    ParseIntReads(ws, sign, ds, tail);
  }

  /** `parseInt` reads past white space, leading zeros and trailing text:
      `" 050px"` is accepted as 50. */
  lemma AcceptsLooseDecimal()
    ensures CheckValue(" 050px") == Ok(Some(50))
  {
    ParseIntReads(" ", "", "050", "px");
    assert " " + "" + "050" + "px" == " 050px";
    assert "050"[..2] == "05" && "05"[..1] == "0";
  }

  /** Every integer outside [0, 100] written in decimal is rejected. */
  lemma RejectsOutsideRange(n: int)
    requires n < 0 || n > 100
    ensures CheckValue(IntToString(n)) == Err(OutOfRange(n))
  {
    ParseIntOfIntToString(n);
  }

  /** `newValue.toString()`: the decimal text of the parsed value, "NaN" for NaN. */
  function ValueText(n: Option<int>): string {
    if n.Some? then IntToString(n.value) else "NaN"
  }

  /** The value text sent for an accepted value parses back to the value
      the range test saw. */
  lemma ValueTextReadsBack(value: string)
    requires CheckValue(value).Ok?
    ensures ParseInt(ValueText(CheckValue(value).value)) == ParseInt(value)
  {
    var n := CheckValue(value).value;
    if n.Some? {
      ParseIntOfIntToString(n.value);
    } else {
      assert LeadingDigits("NaN") == [];
    }
  }

  /** `value: newValue` in the Set-based client: a JavaScript number, NaN included. */
  function ValueNumber(n: Option<int>): JsValue {
    if n.Some? then Num(n.value) else NaN
  }

  /** The member that addresses the connector: `shortId` on the short-id
      path, else the derived `connectorId`. */
  function Target(pluginId: string, id: string, data: Option<seq<DataItem>>, isShortId: bool): Member {
    if isShortId then Member("shortId", Str(id)) else Member("connectorId", Str(LongConnectorId(pluginId, id, data)))
  }

  // ---- The long id determines its data items ----

  /** An item whose parts can be read back from `|id=value`. */
  predicate PlainItem(item: DataItem) {
    '|' !in item.id && '=' !in item.id && '|' !in item.value
  }

  predicate PlainItems(items: seq<DataItem>) {
    forall i :: 0 <= i < |items| ==> PlainItem(items[i])
  }

  /** The first index of `c` in `s`, or `|s|`. */
  function IndexOf(s: string, c: char): (k: nat)
    ensures k <= |s|
    ensures forall j :: 0 <= j < k ==> s[j] != c
    ensures k < |s| ==> s[k] == c
    decreases |s|
  {
    if s == [] then 0 else if s[0] == c then 0 else 1 + IndexOf(s[1..], c)
  }

  lemma {:induction false} IndexOfConcat(a: string, b: string, c: char)
    requires c !in a
    requires b == [] || b[0] == c
    ensures IndexOf(a + b, c) == |a|
    decreases |a|
  {
    if a != [] {
      assert (a + b)[0] == a[0] && (a + b)[1..] == a[1..] + b;
      IndexOfConcat(a[1..], b, c);
    }
  }

  /** Reads `|id=value|id=value...` back into data items. */
  function ParseSuffix(s: string): Option<seq<DataItem>>
    decreases |s|
  {
    if s == [] then Some([])
    else if s[0] != '|' then None
    else
      var j := 1 + IndexOf(s[1..], '|');
      var seg := s[1..j];
      var k := IndexOf(seg, '=');
      if k == |seg| then None
      else
        var rest := ParseSuffix(s[j..]);
        if rest.None? then None else Some([DataItem(seg[..k], seg[k + 1..])] + rest.value)
  }

  /** One `|id=value` part is read back as its item. */
  lemma ParseSuffixStep(it: DataItem, tail: string)
    requires PlainItem(it)
    requires tail == [] || tail[0] == '|'
    ensures ParseSuffix("|" + it.id + "=" + it.value + tail) ==
      if ParseSuffix(tail).None? then None else Some([it] + ParseSuffix(tail).value)
  {
    var seg := it.id + ("=" + it.value);
    var s := "|" + seg + tail;
    assert s == "|" + it.id + "=" + it.value + tail;
    assert s[1..] == seg + tail;
    assert '|' !in seg;
    IndexOfConcat(seg, tail, '|');
    var j := 1 + |seg|;
    assert s[1..j] == seg;
    assert s[j..] == tail;
    IndexOfConcat(it.id, "=" + it.value, '=');
    assert seg[..|it.id|] == it.id;
    assert seg[|it.id| + 1..] == it.value;
  }

  lemma {:induction false} ParseSuffixOfSuffix(items: seq<DataItem>)
    requires PlainItems(items)
    ensures ParseSuffix(Suffix(items)) == Some(items)
    decreases |items|
  {
    if items != [] {
      var tail := Suffix(items[1..]);
      ParseSuffixStep(items[0], tail);
      ParseSuffixOfSuffix(items[1..]);
      assert [items[0]] + items[1..] == items;
    }
  }

  /** Long connector ids are injective in the data items (so also sensitive
      to their order), as long as item ids hold neither `|` nor `=` and
      item values hold no `|`. */
  lemma LongIdDeterminesItems(pluginId: string, id: string, items: seq<DataItem>, items': seq<DataItem>)
    requires PlainItems(items) && PlainItems(items')
    requires LongConnectorId(pluginId, id, Some(items)) == LongConnectorId(pluginId, id, Some(items'))
    ensures items == items'
  {
    var p := CONNECTOR_PREFIX + "_" + pluginId + "_" + id;
    assert (p + Suffix(items))[|p|..] == Suffix(items);
    assert (p + Suffix(items'))[|p|..] == Suffix(items');
    ParseSuffixOfSuffix(items);
    ParseSuffixOfSuffix(items');
  }

  // ---- connectorUpdateMany ----

  /** The array `connectorUpdateMany` sends, or the first error met;
      `update` is the client's `buildConnectorUpdate` applied to one entry. */
  function ConnectorBatch(update: Connector -> Result<JsValue>, connectors: seq<Connector>): Result<seq<JsValue>>
    decreases |connectors|
  {
    if connectors == [] then Ok([])
    else
      match update(connectors[0])
      case Err(e) => Err(e)
      case Ok(m) =>
        var rest := ConnectorBatch(update, connectors[1..]);
        if rest.Err? then Err(rest.error) else Ok([m] + rest.value)
  }

  /** `prefix` put before a successful batch; an error is kept. */
  function Prepend(prefix: seq<JsValue>, r: Result<seq<JsValue>>): Result<seq<JsValue>> {
    if r.Err? then r else Ok(prefix + r.value)
  }

  lemma PrependEmpty(r: Result<seq<JsValue>>)
    ensures Prepend([], r) == r
  {
    if r.Ok? {
      assert [] + r.value == r.value;
    }
  }

  lemma PrependSnoc(prefix: seq<JsValue>, m: JsValue, r: Result<seq<JsValue>>)
    ensures Prepend(prefix + [m], r) == Prepend(prefix, Prepend([m], r))
  {
    if r.Ok? {
      assert (prefix + [m]) + r.value == prefix + ([m] + r.value);
    }
  }

  /** One step of the batch, taken at position `i`. */
  lemma ConnectorBatchStep(update: Connector -> Result<JsValue>, connectors: seq<Connector>, i: nat)
    requires i < |connectors|
    ensures ConnectorBatch(update, connectors[i..]) ==
      match update(connectors[i])
      case Err(e) => Err(e)
      case Ok(m) => Prepend([m], ConnectorBatch(update, connectors[i + 1..]))
  {
  }

  /** On success the batch holds one update per connector, each the one
      `update` makes for it, in the order given. */
  lemma {:induction false} ConnectorBatchOnePerConnector(update: Connector -> Result<JsValue>, connectors: seq<Connector>)
    requires ConnectorBatch(update, connectors).Ok?
    ensures |ConnectorBatch(update, connectors).value| == |connectors|
    ensures forall i :: 0 <= i < |connectors| ==>
      update(connectors[i]) == Ok(ConnectorBatch(update, connectors).value[i])
    decreases |connectors|
  {
    if connectors != [] {
      ConnectorBatchOnePerConnector(update, connectors[1..]);
      var b := ConnectorBatch(update, connectors).value;
      forall i | 1 <= i < |connectors|
        ensures update(connectors[i]) == Ok(b[i])
      {
        assert connectors[i] == connectors[1..][i - 1];
      }
    }
  }

  /** The batch fails exactly when building some entry's update fails, and
      then with the error of the first such entry. */
  lemma {:induction false} ConnectorBatchFailsOnFirstError(update: Connector -> Result<JsValue>, connectors: seq<Connector>)
    ensures ConnectorBatch(update, connectors).Err? <==>
      exists i :: 0 <= i < |connectors| && update(connectors[i]).Err?
    ensures ConnectorBatch(update, connectors).Err? ==>
      exists i :: 0 <= i < |connectors| && update(connectors[i]) == Err(ConnectorBatch(update, connectors).error) &&
        forall j :: 0 <= j < i ==> update(connectors[j]).Ok?
    decreases |connectors|
  {
    if connectors != [] {
      var rest := connectors[1..];
      ConnectorBatchFailsOnFirstError(update, rest);
      if update(connectors[0]).Ok? {
        if exists i :: 0 <= i < |connectors| && update(connectors[i]).Err? {
          var i :| 0 <= i < |connectors| && update(connectors[i]).Err?;
          assert connectors[i] == rest[i - 1];
        }
        if ConnectorBatch(update, rest).Err? {
          var i :| 0 <= i < |rest| && update(rest[i]) == Err(ConnectorBatch(update, rest).error) &&
            forall j :: 0 <= j < i ==> update(rest[j]).Ok?;
          assert connectors[i + 1] == rest[i];
          forall j | 0 <= j < i + 1 ensures update(connectors[j]).Ok? {
            if j > 0 {
              assert connectors[j] == rest[j - 1];
            }
          }
        }
      }
    }
  }
}
