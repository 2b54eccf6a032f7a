/**
 * The analytics resource (src/Beepsend/Resource/Analytic.php): each
 * operation makes one GET call on the request handler, to the action's path
 * followed by an identifier, with a parameter array holding exactly the
 * optional arguments that are not null, and returns the handler's result.
 */
module Resource {
  import opened PhpValues
  import opened PhpArrays
  import opened Beepsend

  /** The `$actions` property: operation name to path prefix. */
  function ActionMap(): (m: map<string, string>)
    ensures m.Keys == {"summary", "network", "batch"}
    ensures forall a, b :: a in m && b in m && a != b ==> m[a] != m[b]
  {
    map["summary" := "/analytics/summary/",
        "network" := "/analytics/network/",
        "batch" := "/analytics/batches/"]
  }

  /** The parameter names `summary` may send, in the order it sets them. */
  const SummaryFields: seq<string> := ["from_date", "to_date"]

  /** The parameter names `network` may send, in the order it sets them. */
  const NetworkFields: seq<string> := ["from_date", "to_date", "MCC", "MNC"]

  /** The entry one optional argument contributes: none when it is null. */
  function Entry(name: string, arg: Option<Value>): Entries {
    match arg
    case None => []
    case Some(v) => [(name, v)]
  }

  /**
   * The array built by `if (!is_null($x)) $data[name] = $x;` for each
   * name and argument in turn, starting from `array()`.
   */
  function Present(names: seq<string>, args: seq<Option<Value>>): (r: Entries)
    requires |names| == |args|
    ensures |r| <= |names|
  {
    if names == [] then []
    else
      Entry(names[0], args[0]) + Present(names[1..], args[1..])
  }

  lemma PresentLast(name: string, arg: Option<Value>)
    ensures Present([name], [arg]) == Entry(name, arg)
  {
    assert [name][1..] == [] && [arg][1..] == [];
    assert Entry(name, arg) + [] == Entry(name, arg);
  }

  lemma PresentCons(name: string, names: seq<string>, arg: Option<Value>, args: seq<Option<Value>>)
    requires |names| == |args|
    ensures Present([name] + names, [arg] + args) == Entry(name, arg) + Present(names, args)
  {
    assert ([name] + names)[1..] == names && ([arg] + args)[1..] == args;
  }

  /** `summary`'s two conditional assignments, one after the other. */
  lemma SummaryFieldsUnfold(fromDate: Option<Value>, toDate: Option<Value>)
    ensures Present(SummaryFields, [fromDate, toDate]) == Entry("from_date", fromDate) + Entry("to_date", toDate)
  {
    PresentLast("to_date", toDate);
    PresentCons("from_date", ["to_date"], fromDate, [toDate]);
    assert SummaryFields == ["from_date"] + ["to_date"] && [fromDate, toDate] == [fromDate] + [toDate];
  }

  lemma PresentFour(n1: string, n2: string, n3: string, n4: string,
                    a1: Option<Value>, a2: Option<Value>, a3: Option<Value>, a4: Option<Value>)
    ensures Present([n1, n2, n3, n4], [a1, a2, a3, a4]) == Entry(n1, a1) + Entry(n2, a2) + Entry(n3, a3) + Entry(n4, a4)
  {
    var e1, e2, e3, e4 := Entry(n1, a1), Entry(n2, a2), Entry(n3, a3), Entry(n4, a4);
    assert Present([n3, n4], [a3, a4]) == e3 + e4 by {
      PresentLast(n4, a4);
      PresentCons(n3, [n4], a3, [a4]);
      assert [n3] + [n4] == [n3, n4] && [a3] + [a4] == [a3, a4];
    }
    assert Present([n2, n3, n4], [a2, a3, a4]) == e2 + (e3 + e4) by {
      PresentCons(n2, [n3, n4], a2, [a3, a4]);
      assert [n2] + [n3, n4] == [n2, n3, n4] && [a2] + [a3, a4] == [a2, a3, a4];
    }
    assert Present([n1, n2, n3, n4], [a1, a2, a3, a4]) == e1 + (e2 + (e3 + e4)) by {
      PresentCons(n1, [n2, n3, n4], a1, [a2, a3, a4]);
      assert [n1] + [n2, n3, n4] == [n1, n2, n3, n4] && [a1] + [a2, a3, a4] == [a1, a2, a3, a4];
    }
    SeqAssoc(e1, e2, e3 + e4);
    SeqAssoc(e1 + e2, e3, e4);
  }

  /** `network`'s four conditional assignments, one after the other. */
  lemma NetworkFieldsUnfold(fromDate: Option<Value>, toDate: Option<Value>, mcc: Option<Value>, mnc: Option<Value>)
    ensures Present(NetworkFields, [fromDate, toDate, mcc, mnc])
         == Entry("from_date", fromDate) + Entry("to_date", toDate) + Entry("MCC", mcc) + Entry("MNC", mnc)
  {
    PresentFour("from_date", "to_date", "MCC", "MNC", fromDate, toDate, mcc, mnc);
  }

  lemma SeqAssoc(x: Entries, y: Entries, z: Entries)
    ensures x + (y + z) == (x + y) + z
  {
  }

  lemma KeysAppend(x: Entries, y: Entries)
    ensures Keys(x + y) == Keys(x) + Keys(y)
  {
  }

  lemma EntryKeys(name: string, arg: Option<Value>)
    ensures Keys(Entry(name, arg)) == if arg.Some? then [name] else []
  {
  }

  /** The call `summary($connection, $fromDate, $toDate)` makes. */
  function SummaryCall(connection: Option<Value>, fromDate: Option<Value>, toDate: Option<Value>): (r: Call)
    ensures r.verb == GET && |r.path| >= 19 && r.path[..19] == "/analytics/summary/"
    ensures r.params.Some? && |r.params.value| <= 2
  {
    Call(ActionMap()["summary"] + Suffix(connection), GET, Some(Present(SummaryFields, [fromDate, toDate])))
  }

  /** The call `network($connection, $fromDate, $toDate, $MCC, $MNC)` makes. */
  function NetworkCall(connection: Option<Value>, fromDate: Option<Value>, toDate: Option<Value>,
                       mcc: Option<Value>, mnc: Option<Value>): (r: Call)
    ensures r.verb == GET && |r.path| >= 19 && r.path[..19] == "/analytics/network/"
    ensures r.params.Some? && |r.params.value| <= 4
  {
    Call(ActionMap()["network"] + Suffix(connection), GET,
         Some(Present(NetworkFields, [fromDate, toDate, mcc, mnc])))
  }

  /** The call `batch($batchId)` makes: no parameter array is passed. */
  function BatchCall(batchId: Option<Value>): (r: Call)
    ensures r.verb == GET && |r.path| >= 19 && r.path[..19] == "/analytics/batches/"
    ensures r.params == None
  {
    Call(ActionMap()["batch"] + Suffix(batchId), GET, None)
  }

  lemma LookupCons(e: (string, Value), a: Entries, k: string)
    ensures Lookup([e] + a, k) == if e.0 == k then Some(e.1) else Lookup(a, k)
  {
    assert ([e] + a)[1..] == a;
  }

  lemma DistinctTail(names: seq<string>)
    requires names != [] && Distinct(names)
    ensures Distinct(names[1..]) && names[0] !in names[1..]
  {
    forall p, q | 0 <= p < q < |names[1..]| ensures names[1..][p] != names[1..][q] {
      assert names[1..][p] == names[p + 1] && names[1..][q] == names[q + 1];
    }
  }

  /**
   * A name's entry holds its argument exactly when that argument is not
   * null, and no name outside the list gets an entry.
   */
  lemma {:induction false} PresentLookup(names: seq<string>, args: seq<Option<Value>>, k: string)
    requires |names| == |args|
    requires Distinct(names)
    ensures k !in names ==> Lookup(Present(names, args), k) == None
    ensures forall i :: 0 <= i < |names| && names[i] == k ==> Lookup(Present(names, args), k) == args[i]
  {
    if names != [] {
      var rest := Present(names[1..], args[1..]);
      DistinctTail(names);
      PresentLookup(names[1..], args[1..], k);
      if args[0].Some? {
        LookupCons((names[0], args[0].value), rest, k);
      } else {
        assert Present(names, args) == rest;
      }
      if k !in names {
        assert k != names[0] && k !in names[1..];
      }
      forall i | 0 <= i < |names| && names[i] == k
        ensures Lookup(Present(names, args), k) == args[i]
      {
        if i > 0 {
          assert names[1..][i - 1] == k;
          assert names[0] != k;
        }
      }
    }
  }

  /** Every key the array holds is one of the names. */
  lemma {:induction false} PresentKeysAmongNames(names: seq<string>, args: seq<Option<Value>>)
    requires |names| == |args|
    ensures forall k :: k in Keys(Present(names, args)) ==> k in names
  {
    if names != [] {
      var rest := Present(names[1..], args[1..]);
      PresentKeysAmongNames(names[1..], args[1..]);
      assert Keys(Entry(names[0], args[0]) + rest) == Keys(Entry(names[0], args[0])) + Keys(rest);
    }
  }

  /** With distinct names, the array built never holds a key twice. */
  lemma {:induction false} PresentDistinct(names: seq<string>, args: seq<Option<Value>>)
    requires |names| == |args|
    requires Distinct(names)
    ensures DistinctKeys(Present(names, args))
  {
    if names != [] {
      var rest := Present(names[1..], args[1..]);
      DistinctTail(names);
      PresentDistinct(names[1..], args[1..]);
      PresentKeysAmongNames(names[1..], args[1..]);
      if args[0].Some? {
        assert names[0] !in Keys(rest);
        assert Present(names, args) == [(names[0], args[0].value)] + rest;
        KeysCons((names[0], args[0].value), rest);
        var ks := [names[0]] + Keys(rest);
        forall p, q | 0 <= p < q < |ks| ensures ks[p] != ks[q] {
          if p > 0 {
            assert ks[p] == Keys(rest)[p - 1] && ks[q] == Keys(rest)[q - 1];
          }
        }
        assert Distinct(ks);
      } else {
        assert Present(names, args) == rest;
      }
    }
  }

  lemma PositionCons(e: (string, Value), a: Entries, k: string)
    requires k in Keys(a) && e.0 != k
    ensures k in Keys([e] + a) && Position([e] + a, k) == 1 + Position(a, k)
  {
    KeysCons(e, a);
    assert ([e] + a)[1..] == a;
  }

  /** Entries appear in the order of their names: insertion order is kept. */
  lemma {:induction false} PresentOrder(names: seq<string>, args: seq<Option<Value>>, i: nat, j: nat)
    requires |names| == |args|
    requires Distinct(names)
    requires i < j < |names|
    requires args[i].Some? && args[j].Some?
    ensures names[i] in Keys(Present(names, args)) && names[j] in Keys(Present(names, args))
    ensures Position(Present(names, args), names[i]) < Position(Present(names, args), names[j])
  {
    var a := Present(names, args);
    PresentLookup(names, args, names[i]);
    PresentLookup(names, args, names[j]);
    var rest := Present(names[1..], args[1..]);
    if i == 0 {
      assert a[0].0 == names[0];
    } else {
      DistinctTail(names);
      assert names[1..][i - 1] == names[i] && names[1..][j - 1] == names[j];
      PresentOrder(names[1..], args[1..], i - 1, j - 1);
      if args[0].Some? {
        assert names[0] != names[i] && names[0] != names[j];
        PositionCons((names[0], args[0].value), rest, names[i]);
        PositionCons((names[0], args[0].value), rest, names[j]);
      } else {
        assert a == rest;
      }
    }
  }

  /**
   * `summary` issues a GET to "/analytics/summary/" followed by the
   * connection, with `from_date` present exactly when `$fromDate` is not
   * null and `to_date` exactly when `$toDate` is not null, in that order,
   * and no other key.
   */
  lemma SummaryCallSpec(connection: Option<Value>, fromDate: Option<Value>, toDate: Option<Value>)
    ensures SummaryCall(connection, fromDate, toDate).verb == GET
    ensures SummaryCall(connection, fromDate, toDate).path == "/analytics/summary/" + Suffix(connection)
    ensures SummaryCall(connection, fromDate, toDate).params.Some?
    ensures var data := SummaryCall(connection, fromDate, toDate).params.value;
      && DistinctKeys(data)
      && Lookup(data, "from_date") == fromDate
      && Lookup(data, "to_date") == toDate
      && (forall k :: k != "from_date" && k != "to_date" ==> Lookup(data, k) == None)
      && (fromDate.Some? && toDate.Some? ==> Position(data, "from_date") < Position(data, "to_date"))
  {
    var args := [fromDate, toDate];
    var data := Present(SummaryFields, args);
    assert Distinct(SummaryFields);
    assert DistinctKeys(data) by {
      PresentDistinct(SummaryFields, args);
    }
    assert Lookup(data, "from_date") == fromDate by {
      PresentLookup(SummaryFields, args, "from_date");
    }
    assert Lookup(data, "to_date") == toDate by {
      PresentLookup(SummaryFields, args, "to_date");
    }
    forall k | k != "from_date" && k != "to_date"
      ensures Lookup(data, k) == None
    {
      PresentLookup(SummaryFields, args, k);
    }
    if fromDate.Some? && toDate.Some? {
      PresentOrder(SummaryFields, args, 0, 1);
    }
  }

  /**
   * `network` issues a GET to "/analytics/network/" followed by the
   * connection; `from_date`, `to_date`, `MCC` and `MNC` are each present
   * exactly when the matching argument is not null, with that value, in
   * that order, and no other key is.
   */
  lemma NetworkCallSpec(connection: Option<Value>, fromDate: Option<Value>, toDate: Option<Value>,
                        mcc: Option<Value>, mnc: Option<Value>)
    ensures NetworkCall(connection, fromDate, toDate, mcc, mnc).verb == GET
    ensures NetworkCall(connection, fromDate, toDate, mcc, mnc).path == "/analytics/network/" + Suffix(connection)
    ensures NetworkCall(connection, fromDate, toDate, mcc, mnc).params.Some?
    ensures var data := NetworkCall(connection, fromDate, toDate, mcc, mnc).params.value;
      var args := [fromDate, toDate, mcc, mnc];
      && DistinctKeys(data)
      && (forall i :: 0 <= i < 4 ==> Lookup(data, NetworkFields[i]) == args[i])
      && (forall k :: k !in NetworkFields ==> Lookup(data, k) == None)
      && (forall i, j :: 0 <= i < j < 4 && args[i].Some? && args[j].Some? ==>
            Position(data, NetworkFields[i]) < Position(data, NetworkFields[j]))
  {
    var args := [fromDate, toDate, mcc, mnc];
    var data := Present(NetworkFields, args);
    assert Distinct(NetworkFields);
    PresentDistinct(NetworkFields, args);
    forall i | 0 <= i < 4 ensures Lookup(data, NetworkFields[i]) == args[i] {
      PresentLookup(NetworkFields, args, NetworkFields[i]);
    }
    forall k | k !in NetworkFields ensures Lookup(data, k) == None {
      PresentLookup(NetworkFields, args, k);
    }
    forall i, j | 0 <= i < j < 4 && args[i].Some? && args[j].Some?
      ensures Position(data, NetworkFields[i]) < Position(data, NetworkFields[j])
    {
      PresentOrder(NetworkFields, args, i, j);
    }
  }

  /**
   * `batch` issues a GET to "/analytics/batches/" followed by the batch id
   * (its decimal digits when it is an integer) and passes no parameters.
   */
  lemma BatchCallSpec(batchId: Option<Value>)
    ensures BatchCall(batchId).verb == GET
    ensures BatchCall(batchId).path == "/analytics/batches/" + Suffix(batchId)
    ensures batchId.Some? && batchId.value.Int? ==>
      BatchCall(batchId).path == "/analytics/batches/" + DecimalString(batchId.value.i)
    ensures BatchCall(batchId).params == None
  {
  }

  /** A null identifier leaves each path at its bare action prefix. */
  lemma NullIdentifierPaths(fromDate: Option<Value>, toDate: Option<Value>, mcc: Option<Value>, mnc: Option<Value>)
    ensures SummaryCall(None, fromDate, toDate).path == "/analytics/summary/"
    ensures NetworkCall(None, fromDate, toDate, mcc, mnc).path == "/analytics/network/"
    ensures BatchCall(None).path == "/analytics/batches/"
  {
  }

  /**
   * Only null is left out: 0, "", "0" and false given for a date, an MCC
   * or an MNC are still sent under their key.
   */
  lemma FalsyArgumentsKept(v: Value, connection: Option<Value>,
                            a: Option<Value>, b: Option<Value>, c: Option<Value>)
    requires Falsy(v)
    ensures Lookup(SummaryCall(connection, Some(v), a).params.value, "from_date") == Some(v)
    ensures Lookup(SummaryCall(connection, a, Some(v)).params.value, "to_date") == Some(v)
    ensures Lookup(NetworkCall(connection, Some(v), a, b, c).params.value, "from_date") == Some(v)
    ensures Lookup(NetworkCall(connection, a, Some(v), b, c).params.value, "to_date") == Some(v)
    ensures Lookup(NetworkCall(connection, a, b, Some(v), c).params.value, "MCC") == Some(v)
    ensures Lookup(NetworkCall(connection, a, b, c, Some(v)).params.value, "MNC") == Some(v)
  {
    SummaryCallSpec(connection, Some(v), a);
    SummaryCallSpec(connection, a, Some(v));
    NetworkCallSpec(connection, Some(v), a, b, c);
    assert NetworkFields[0] == "from_date";
    NetworkCallSpec(connection, a, Some(v), b, c);
    assert NetworkFields[1] == "to_date";
    NetworkCallSpec(connection, a, b, Some(v), c);
    assert NetworkFields[2] == "MCC";
    NetworkCallSpec(connection, a, b, c, Some(v));
    assert NetworkFields[3] == "MNC";
  }

  /** The three operations never address the same path, whatever their identifiers. */
  lemma CallPathsDisjoint(c1: Option<Value>, c2: Option<Value>, c3: Option<Value>,
                          fromDate: Option<Value>, toDate: Option<Value>, mcc: Option<Value>, mnc: Option<Value>)
    ensures SummaryCall(c1, fromDate, toDate).path != NetworkCall(c2, fromDate, toDate, mcc, mnc).path
    ensures SummaryCall(c1, fromDate, toDate).path != BatchCall(c3).path
    ensures NetworkCall(c2, fromDate, toDate, mcc, mnc).path != BatchCall(c3).path
  {
    assert SummaryCall(c1, fromDate, toDate).path[11] == 's';
    assert NetworkCall(c2, fromDate, toDate, mcc, mnc).path[11] == 'n';
    assert BatchCall(c3).path[11] == 'b';
  }

  /** Distinct integer batch ids address distinct paths. */
  lemma BatchPathInjective(a: int, b: int)
    requires BatchCall(Some(Int(a))).path == BatchCall(Some(Int(b))).path
    ensures a == b
  {
    var prefix := "/analytics/batches/";
    assert DecimalString(a) == BatchCall(Some(Int(a))).path[|prefix|..];
    assert DecimalString(b) == BatchCall(Some(Int(b))).path[|prefix|..];
    DecimalInjective(a, b);
  }

  /** Two concrete calls: a connection alone, and a date range without a connection. */
  lemma SummaryExamples()
    ensures SummaryCall(Some(Str("123")), None, None) == Call("/analytics/summary/123", GET, Some([]))
    ensures SummaryCall(None, Some(Int(1000)), Some(Int(2000)))
         == Call("/analytics/summary/", GET, Some([("from_date", Int(1000)), ("to_date", Int(2000))]))
  {
    assert SummaryCall(Some(Str("123")), None, None) == Call("/analytics/summary/123", GET, Some([])) by {
      SummaryFieldsUnfold(None, None);
      assert Suffix(Some(Str("123"))) == "123";
      assert ActionMap()["summary"] + "123" == "/analytics/summary/123";
    }
    assert SummaryCall(None, Some(Int(1000)), Some(Int(2000)))
        == Call("/analytics/summary/", GET, Some([("from_date", Int(1000)), ("to_date", Int(2000))])) by {
      SummaryFieldsUnfold(Some(Int(1000)), Some(Int(2000)));
      assert Entry("from_date", Some(Int(1000))) + Entry("to_date", Some(Int(2000)))
          == [("from_date", Int(1000)), ("to_date", Int(2000))];
      assert ActionMap()["summary"] + "" == "/analytics/summary/";
    }
  }

  /**
   * The `$data` array `summary` builds: one conditional assignment per
   * date, `from_date` first.
   */
  method SummaryData(fromDate: Option<Value>, toDate: Option<Value>) returns (data: Entries)
    ensures data == Present(SummaryFields, [fromDate, toDate])
  {
    data := [];
    if fromDate.Some? {
      AssignNewKey(data, "from_date", fromDate.value);
      data := Assign(data, "from_date", fromDate.value);
    }
    assert data == Entry("from_date", fromDate);
    if toDate.Some? {
      assert Keys(data) == if fromDate.Some? then ["from_date"] else [];
      AssignNewKey(data, "to_date", toDate.value);
      data := Assign(data, "to_date", toDate.value);
    }
    assert data == Entry("from_date", fromDate) + Entry("to_date", toDate);
    assert data == Present(SummaryFields, [fromDate, toDate]) by {
      SummaryFieldsUnfold(fromDate, toDate);
    }
  }

  /**
   * The `$data` array `network` builds: one conditional assignment each for
   * `from_date`, `to_date`, `MCC` and `MNC`, in that order.
   */
  method NetworkData(fromDate: Option<Value>, toDate: Option<Value>,
                     mcc: Option<Value>, mnc: Option<Value>) returns (data: Entries)
    ensures data == Present(NetworkFields, [fromDate, toDate, mcc, mnc])
  {
    data := [];
    if fromDate.Some? {
      data := Assign(data, "from_date", fromDate.value);
    }
    ghost var afterFrom := data;
    assert afterFrom == Entry("from_date", fromDate);
    if toDate.Some? {
      data := Assign(data, "to_date", toDate.value);
    }
    assert data == afterFrom + Entry("to_date", toDate) by {
      if toDate.Some? {
        EntryKeys("from_date", fromDate);
        AssignNewKey(afterFrom, "to_date", toDate.value);
      }
    }
    ghost var afterTo := data;
    if mcc.Some? {
      data := Assign(data, "MCC", mcc.value);
    }
    assert data == afterTo + Entry("MCC", mcc) by {
      if mcc.Some? {
        KeysAppend(afterFrom, Entry("to_date", toDate));
        EntryKeys("from_date", fromDate);
        EntryKeys("to_date", toDate);
        AssignNewKey(afterTo, "MCC", mcc.value);
      }
    }
    ghost var afterMcc := data;
    if mnc.Some? {
      data := Assign(data, "MNC", mnc.value);
    }
    assert data == afterMcc + Entry("MNC", mnc) by {
      if mnc.Some? {
        KeysAppend(afterTo, Entry("MCC", mcc));
        KeysAppend(afterFrom, Entry("to_date", toDate));
        EntryKeys("from_date", fromDate);
        EntryKeys("to_date", toDate);
        EntryKeys("MCC", mcc);
        AssignNewKey(afterMcc, "MNC", mnc.value);
      }
    }
    assert data == Present(NetworkFields, [fromDate, toDate, mcc, mnc]) by {
      NetworkFieldsUnfold(fromDate, toDate, mcc, mnc);
    }
  }

  /**
   * The resource object. Both properties are constants: the handler is
   * set by the constructor and the action map by its initializer, and no
   * operation changes either.
   */
  class Analytic<R> {
    const request: Request<R>
    const actions: map<string, string> := ActionMap()

    constructor (request: Request<R>)
      ensures this.request == request
    {
      this.request := request;
    }

    /** Accumulated statistics, for one connection when one is given. */
    method Summary(connection: Option<Value>, fromDate: Option<Value>, toDate: Option<Value>)
      returns (response: R)
      modifies request
      ensures response == request.transport(SummaryCall(connection, fromDate, toDate))
      ensures request.log == old(request.log) + [(SummaryCall(connection, fromDate, toDate), response)]
    {
      var data := SummaryData(fromDate, toDate);
      response := request.Execute(actions["summary"] + Suffix(connection), GET, Some(data));
    }

    /** Delivery statistics per recipient network, between two dates. */
    method Network(connection: Option<Value>, fromDate: Option<Value>, toDate: Option<Value>,
                   mcc: Option<Value>, mnc: Option<Value>)
      returns (response: R)
      modifies request
      ensures response == request.transport(NetworkCall(connection, fromDate, toDate, mcc, mnc))
      ensures request.log == old(request.log) + [(NetworkCall(connection, fromDate, toDate, mcc, mnc), response)]
    {
      var data := NetworkData(fromDate, toDate, mcc, mnc);
      response := request.Execute(actions["network"] + Suffix(connection), GET, Some(data));
    }

    /** Delivery statistics for a whole batch. */
    method Batch(batchId: Option<Value>) returns (response: R)
      modifies request
      ensures response == request.transport(BatchCall(batchId))
      ensures request.log == old(request.log) + [(BatchCall(batchId), response)]
    {
      response := request.Execute(actions["batch"] + Suffix(batchId), GET, None);
    }
  }
}
