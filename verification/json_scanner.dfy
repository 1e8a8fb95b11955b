/**
 The check of request bodies: exactly one JSON value, and no object in it that has a field twice.

 Tokens are what the decoder hands out, so commas, colons and spelling are behind us; that brackets match and that
 field names are strings is what the decoder still checks, from a stack of the brackets that are open.
 */
module JsonScanner {
  import opened Wrappers

  datatype Token = OpenObject | CloseObject | OpenArray | CloseArray | Str(text: string) | Scalar(literal: string)

  datatype Json = Literal(literal: string) | Text(text: string) | Array(items: Items) | Object(fields: Fields)
  datatype Items = NoItem | Item(first: Json, others: Items)
  datatype Fields = NoField | Field(name: string, value: Json, others: Fields)

  function Tokens(v: Json): seq<Token> {
    match v
    case Literal(literal) => [Scalar(literal)]
    case Text(text) => [Str(text)]
    case Array(items) => [OpenArray] + ItemTokens(items) + [CloseArray]
    case Object(fields) => [OpenObject] + FieldTokens(fields) + [CloseObject]
  }

  function ItemTokens(items: Items): seq<Token> {
    match items
    case NoItem => []
    case Item(first, others) => Tokens(first) + ItemTokens(others)
  }

  function FieldTokens(fields: Fields): seq<Token> {
    match fields
    case NoField => []
    case Field(name, value, others) => [Str(name)] + Tokens(value) + FieldTokens(others)
  }

  function Names(fields: Fields): seq<string> {
    match fields
    case NoField => []
    case Field(name, _, others) => [name] + Names(others)
  }

  predicate PairwiseDistinct(names: seq<string>) {
    forall i, j :: 0 <= i < j < |names| ==> names[i] != names[j]
  }

  /** At every depth, no two fields of one object have the same name. */
  predicate DistinctNames(v: Json) {
    match v
    case Literal(_) => true
    case Text(_) => true
    case Array(items) => DistinctInItems(items)
    case Object(fields) => PairwiseDistinct(Names(fields)) && DistinctInFields(fields)
  }

  predicate DistinctInItems(items: Items) {
    match items
    case NoItem => true
    case Item(first, others) => DistinctNames(first) && DistinctInItems(others)
  }

  predicate DistinctInFields(fields: Fields) {
    match fields
    case NoField => true
    case Field(_, value, others) => DistinctNames(value) && DistinctInFields(others)
  }

  // ---------------------------------------------------------------- scanning as a function of the tokens left

  predicate Closer(t: Token) {
    t.CloseObject? || t.CloseArray?
  }

  /** The tokens left after one value, or nothing if the scan fails. */
  function ScanValue(ts: seq<Token>): (rest: Option<seq<Token>>)
    ensures rest.Some? ==> |rest.value| < |ts|
    decreases |ts|, 0
  {
    if ts == [] || Closer(ts[0]) then None
    else match ts[0]
      case OpenObject => ScanFields(ts[1..], {})
      case OpenArray => ScanItems(ts[1..])
      case _ => Some(ts[1..])
  }

  function ScanFields(ts: seq<Token>, seen: set<string>): (rest: Option<seq<Token>>)
    ensures rest.Some? ==> |rest.value| < |ts|
    decreases |ts|, 1
  {
    if ts == [] then None
    else match ts[0]
      case CloseObject => Some(ts[1..])
      case Str(name) =>
        if name in seen then None else
          var rest := ScanValue(ts[1..]);
          if rest.None? then None else ScanFields(rest.value, seen + {name})
      case _ => None
  }

  function ScanItems(ts: seq<Token>): (rest: Option<seq<Token>>)
    ensures rest.Some? ==> |rest.value| < |ts|
    decreases |ts|, 1
  {
    if ts == [] then None
    else match ts[0]
      case CloseArray => Some(ts[1..])
      case CloseObject => None
      case _ =>
        var rest := ScanValue(ts);
        if rest.None? then None else ScanItems(rest.value)
  }

  // ---------------------------------------------------------------- scanning against the grammar

  lemma {:induction false} ScanCompletes(v: Json, rest: seq<Token>)
    requires DistinctNames(v)
    ensures ScanValue(Tokens(v) + rest) == Some(rest)
    decreases v
  {
    var ts := Tokens(v) + rest;
    match v
    case Array(items) =>
      assert ts[1..] == ItemTokens(items) + ([CloseArray] + rest);
      ScanItemsCompletes(items, rest);
    case Object(fields) =>
      assert ts[1..] == FieldTokens(fields) + ([CloseObject] + rest);
      ScanFieldsCompletes(fields, {}, rest);
    case _ =>
      assert ts[1..] == rest;
  }

  lemma FirstIsNoCloser(v: Json)
    ensures Tokens(v) != [] && !Closer(Tokens(v)[0])
  {
  }

  lemma {:induction false} ScanItemsCompletes(items: Items, rest: seq<Token>)
    requires DistinctInItems(items)
    ensures ScanItems(ItemTokens(items) + ([CloseArray] + rest)) == Some(rest)
    decreases items
  {
    var after := [CloseArray] + rest;
    match items
    case NoItem =>
      assert ItemTokens(items) + after == after && after[1..] == rest;
    case Item(first, others) =>
      assert ItemTokens(items) + after == Tokens(first) + (ItemTokens(others) + after);
      FirstIsNoCloser(first);
      ScanCompletes(first, ItemTokens(others) + after);
      ScanItemsCompletes(others, rest);
  }

  lemma {:induction false} ScanFieldsCompletes(fields: Fields, seen: set<string>, rest: seq<Token>)
    requires NewNames(Names(fields), seen) && DistinctInFields(fields)
    ensures ScanFields(FieldTokens(fields) + ([CloseObject] + rest), seen) == Some(rest)
    decreases fields
  {
    var after := [CloseObject] + rest;
    var ts := FieldTokens(fields) + after;
    match fields
    case NoField =>
      assert ts == after && after[1..] == rest;
    case Field(name, value, others) =>
      NamesSplit(name, Names(others), seen);
      assert ts[1..] == Tokens(value) + (FieldTokens(others) + after);
      ScanCompletes(value, FieldTokens(others) + after);
      ScanFieldsCompletes(others, seen + {name}, rest);
  }

  ghost predicate NewNames(names: seq<string>, seen: set<string>) {
    PairwiseDistinct(names) && forall k :: 0 <= k < |names| ==> names[k] !in seen
  }

  lemma NamesSplit(name: string, tail: seq<string>, seen: set<string>)
    requires NewNames([name] + tail, seen)
    ensures name !in seen && NewNames(tail, seen + {name})
  {
    var all := [name] + tail;
    assert all[0] == name;
    forall k | 0 <= k < |tail| ensures tail[k] !in seen + {name} {
      assert all[k + 1] == tail[k];
    }
    forall i, j | 0 <= i < j < |tail| ensures tail[i] != tail[j] {
      assert all[i + 1] != all[j + 1];
    }
  }

  lemma NamesJoin(name: string, tail: seq<string>, seen: set<string>)
    requires name !in seen && NewNames(tail, seen + {name})
    ensures NewNames([name] + tail, seen)
  {
  }

  lemma ItemInFront(first: Json, others: Items, more: seq<Token>)
    ensures ItemTokens(Item(first, others)) + more == Tokens(first) + (ItemTokens(others) + more)
  {
  }

  lemma FieldInFront(name: string, value: Json, others: Fields, more: seq<Token>)
    ensures FieldTokens(Field(name, value, others)) + more
      == [Str(name)] + (Tokens(value) + (FieldTokens(others) + more))
  {
  }

  lemma Bracketed(items: Items, fields: Fields, more: seq<Token>)
    ensures Tokens(Array(items)) + more == [OpenArray] + (ItemTokens(items) + ([CloseArray] + more))
    ensures Tokens(Object(fields)) + more == [OpenObject] + (FieldTokens(fields) + ([CloseObject] + more))
  {
  }

  lemma {:induction false} ScanSound(ts: seq<Token>) returns (v: Json)
    requires ScanValue(ts).Some?
    ensures DistinctNames(v) && ts == Tokens(v) + ScanValue(ts).value
    decreases |ts|, 0
  {
    assert ts == [ts[0]] + ts[1..];
    match ts[0]
    case OpenArray =>
      var items := ScanItemsSound(ts[1..]);
      Bracketed(items, NoField, ScanValue(ts).value);
      v := Array(items);
    case OpenObject =>
      var fields := ScanFieldsSound(ts[1..], {});
      Bracketed(NoItem, fields, ScanValue(ts).value);
      v := Object(fields);
    case Str(text) => v := Text(text);
    case Scalar(literal) => v := Literal(literal);
  }

  lemma {:induction false} ScanItemsSound(ts: seq<Token>) returns (items: Items)
    requires ScanItems(ts).Some?
    ensures DistinctInItems(items) && ts == ItemTokens(items) + ([CloseArray] + ScanItems(ts).value)
    decreases |ts|, 1
  {
    if ts[0].CloseArray? {
      assert ts == [CloseArray] + ts[1..];
      items := NoItem;
    } else {
      var first := ScanSound(ts);
      var others := ScanItemsSound(ScanValue(ts).value);
      ItemInFront(first, others, [CloseArray] + ScanItems(ts).value);
      items := Item(first, others);
    }
  }

  lemma {:induction false} ScanFieldsSound(ts: seq<Token>, seen: set<string>) returns (fields: Fields)
    requires ScanFields(ts, seen).Some?
    ensures NewNames(Names(fields), seen) && DistinctInFields(fields)
    ensures ts == FieldTokens(fields) + ([CloseObject] + ScanFields(ts, seen).value)
    decreases |ts|, 1
  {
    if ts[0].CloseObject? {
      assert ts == [CloseObject] + ts[1..];
      fields := NoField;
    } else {
      var name := ts[0].text;
      assert ts == [Str(name)] + ts[1..];
      var value := ScanSound(ts[1..]);
      var others := ScanFieldsSound(ScanValue(ts[1..]).value, seen + {name});
      NamesJoin(name, Names(others), seen);
      FieldInFront(name, value, others, [CloseObject] + ScanFields(ts, seen).value);
      fields := Field(name, value, others);
    }
  }

  /** A scan that succeeds has consumed the tokens of exactly one value, and that value repeats no field name. */
  lemma ScansOneValue(ts: seq<Token>, rest: seq<Token>)
    ensures ScanValue(ts) == Some(rest) <==> exists v :: ts == Tokens(v) + rest && DistinctNames(v)
  {
    if ScanValue(ts) == Some(rest) {
      var v := ScanSound(ts);
      assert ts == Tokens(v) + rest && DistinctNames(v);
    }
    if v :| ts == Tokens(v) + rest && DistinctNames(v) {
      ScanCompletes(v, rest);
    }
  }

  // ---------------------------------------------------------------- tokens determine the value

  lemma TokensInside(v: Json, r: seq<Token>)
    ensures (Tokens(v) + r)[0] == Tokens(v)[0]
    ensures (Tokens(v) + r)[1..] ==
      match v
      case Array(items) => ItemTokens(items) + ([CloseArray] + r)
      case Object(fields) => FieldTokens(fields) + ([CloseObject] + r)
      case _ => r
  {
  }

  lemma {:induction false} OneReading(v: Json, w: Json, r: seq<Token>, q: seq<Token>)
    requires Tokens(v) + r == Tokens(w) + q
    ensures v == w && r == q
    decreases v
  {
    TokensInside(v, r);
    TokensInside(w, q);
    match v
    case Array(items) => OneReadingOfItems(items, w.items, r, q);
    case Object(fields) => OneReadingOfFields(fields, w.fields, r, q);
    case _ =>
  }

  /** The first token tells whether there is one more. */
  lemma MoreOrClosed(items: Items, fields: Fields, more: seq<Token>)
    ensures (ItemTokens(items) + ([CloseArray] + more))[0].CloseArray? <==> items.NoItem?
    ensures (FieldTokens(fields) + ([CloseObject] + more))[0].CloseObject? <==> fields.NoField?
  {
  }

  lemma AfterCloser(closer: Token, r: seq<Token>, q: seq<Token>)
    requires [] + ([closer] + r) == [] + ([closer] + q)
    ensures r == q
  {
    assert ([] + ([closer] + r))[1..] == r && ([] + ([closer] + q))[1..] == q;
  }

  lemma {:induction false} OneReadingOfItems(a: Items, b: Items, r: seq<Token>, q: seq<Token>)
    requires ItemTokens(a) + ([CloseArray] + r) == ItemTokens(b) + ([CloseArray] + q)
    ensures a == b && r == q
    decreases a
  {
    MoreOrClosed(a, NoField, r);
    MoreOrClosed(b, NoField, q);
    match a
    case NoItem => AfterCloser(CloseArray, r, q);
    case Item(first, others) =>
      var after, behind := [CloseArray] + r, [CloseArray] + q;
      ItemInFront(first, others, after);
      ItemInFront(b.first, b.others, behind);
      OneReading(first, b.first, ItemTokens(others) + after, ItemTokens(b.others) + behind);
      OneReadingOfItems(others, b.others, r, q);
  }

  lemma {:induction false} OneReadingOfFields(a: Fields, b: Fields, r: seq<Token>, q: seq<Token>)
    requires FieldTokens(a) + ([CloseObject] + r) == FieldTokens(b) + ([CloseObject] + q)
    ensures a == b && r == q
    decreases a
  {
    MoreOrClosed(NoItem, a, r);
    MoreOrClosed(NoItem, b, q);
    match a
    case NoField => AfterCloser(CloseObject, r, q);
    case Field(name, value, others) =>
      var after, behind := [CloseObject] + r, [CloseObject] + q;
      FieldInFront(name, value, others, after);
      FieldInFront(b.name, b.value, b.others, behind);
      SameHead(Str(name), Str(b.name), Tokens(value) + (FieldTokens(others) + after),
        Tokens(b.value) + (FieldTokens(b.others) + behind));
      OneReading(value, b.value, FieldTokens(others) + after, FieldTokens(b.others) + behind);
      OneReadingOfFields(others, b.others, r, q);
  }

  lemma SameHead(s: Token, t: Token, r: seq<Token>, q: seq<Token>)
    requires [s] + r == [t] + q
    ensures s == t && r == q
  {
    assert ([s] + r)[0] == s && ([t] + q)[0] == t;
    assert ([s] + r)[1..] == r && ([t] + q)[1..] == q;
  }

  /** Of a body that is one value, the scan says whether it repeats a field name anywhere. */
  lemma ScanDecides(v: Json)
    ensures ScanValue(Tokens(v)) == Some([]) <==> DistinctNames(v)
  {
    assert Tokens(v) + [] == Tokens(v);
    ScansOneValue(Tokens(v), []);
    if w :| Tokens(v) == Tokens(w) + [] && DistinctNames(w) {
      OneReading(v, w, [], []);
    }
  }

  // ---------------------------------------------------------------- the decoder and the scanner

  datatype Fault = EndOfInput | Syntax(message: string)

  /** The brackets that are open, innermost first; in an object the next token is a field name or a field's value. */
  datatype Stack = Outside | InArray(outer: Stack) | AtName(outer: Stack) | AtValue(outer: Stack)

  class Decoder {
    const tokens: seq<Token>
    var pos: nat
    var stack: Stack

    ghost predicate Valid()
      reads this
    {
      pos <= |tokens|
    }

    function Left(): seq<Token>
      reads this
      requires Valid()
    {
      tokens[pos..]
    }

    constructor (tokens: seq<Token>)
      ensures Valid() && Left() == tokens && stack == Outside
    {
      this.tokens, pos, stack := tokens, 0, Outside;
    }

    /** A value that ends inside an object is followed by a name. */
    static function AfterValue(stack: Stack): Stack {
      if stack.AtValue? then AtName(stack.outer) else stack
    }

    method NextToken() returns (r: Result<Token, Fault>)
      requires Valid()
      modifies this
      ensures Valid() && |old(Left())| >= |Left()|
      ensures old(Left()) == [] <==> r == Err(EndOfInput)
      ensures r.Ok? ==> old(Left()) != [] && r.value == old(Left())[0] && Left() == old(Left())[1..]
      ensures old(Left()) != [] ==>
        match old(Left())[0]
        case OpenObject => r.Ok? == !old(stack).AtName? && (r.Ok? ==> stack == AtName(old(stack)))
        case OpenArray => r.Ok? == !old(stack).AtName? && (r.Ok? ==> stack == InArray(old(stack)))
        case CloseObject => r.Ok? == old(stack).AtName? && (r.Ok? ==> stack == AfterValue(old(stack).outer))
        case CloseArray => r.Ok? == old(stack).InArray? && (r.Ok? ==> stack == AfterValue(old(stack).outer))
        case Str(_) => r.Ok?
          && stack == if old(stack).AtName? then AtValue(old(stack).outer) else AfterValue(old(stack))
        case Scalar(_) => r.Ok? == !old(stack).AtName? && (r.Ok? ==> stack == AfterValue(old(stack)))
    {
      if pos == |tokens| {
        return Err(EndOfInput);
      }
      var t := tokens[pos];
      match t {
        case OpenObject =>
          if stack.AtName? { return Err(Syntax("object key must be a string")); }
          stack := AtName(stack);
        case OpenArray =>
          if stack.AtName? { return Err(Syntax("object key must be a string")); }
          stack := InArray(stack);
        case CloseObject =>
          if !stack.AtName? { return Err(Syntax("unexpected }")); }
          stack := AfterValue(stack.outer);
        case CloseArray =>
          if !stack.InArray? { return Err(Syntax("unexpected ]")); }
          stack := AfterValue(stack.outer);
        case Str(_) =>
          stack := if stack.AtName? then AtValue(stack.outer) else AfterValue(stack);
        case Scalar(_) =>
          if stack.AtName? { return Err(Syntax("object key must be a string")); }
          stack := AfterValue(stack);
      }
      pos := pos + 1;
      r := Ok(t);
    }

    method More() returns (more: bool)
      requires Valid()
      ensures more == (Left() != [] && !Closer(Left()[0]))
    {
      more := pos < |tokens| && !Closer(tokens[pos]);
    }
  }

  /** A value is expected: at the top, after a name, or in an array that goes on. */
  predicate ExpectsValue(stack: Stack, left: seq<Token>) {
    match stack
    case Outside => true
    case AtName(_) => false
    case AtValue(_) => true
    case InArray(_) => left != [] && !Closer(left[0])
  }

  method ScanJSONValue(d: Decoder) returns (ok: bool)
    requires d.Valid() && ExpectsValue(d.stack, d.Left())
    modifies d
    ensures d.Valid() && ok == ScanValue(old(d.Left())).Some?
    ensures ok ==> d.Left() == ScanValue(old(d.Left())).value && d.stack == Decoder.AfterValue(old(d.stack))
    decreases |d.Left()|
  {
    var token := d.NextToken();
    if token.Err? {
      return false;
    }
    match token.value {
      case OpenObject =>
        var seen: set<string> := {};
        var more := d.More();
        while more
          invariant d.Valid() && |d.Left()| < |old(d.Left())|
          invariant d.stack == AtName(old(d.stack))
          invariant more == (d.Left() != [] && !Closer(d.Left()[0]))
          invariant ScanFields(d.Left(), seen) == ScanValue(old(d.Left()))
          decreases |d.Left()|
        {
          var name := d.NextToken();
          if name.Err? || !name.value.Str? || name.value.text in seen {
            return false;
          }
          seen := seen + {name.value.text};
          var scanned := ScanJSONValue(d);
          if !scanned {
            return false;
          }
          more := d.More();
        }
        var end := d.NextToken();
        ok := end.Ok?;
      case OpenArray =>
        var more := d.More();
        while more
          invariant d.Valid() && |d.Left()| < |old(d.Left())|
          invariant d.stack == InArray(old(d.stack))
          invariant more == (d.Left() != [] && !Closer(d.Left()[0]))
          invariant ScanItems(d.Left()) == ScanValue(old(d.Left()))
          decreases |d.Left()|
        {
          var scanned := ScanJSONValue(d);
          if !scanned {
            return false;
          }
          more := d.More();
        }
        var end := d.NextToken();
        ok := end.Ok?;
      case Str(_) => ok := true;
      case Scalar(_) => ok := true;
    }
  }

  /** Accepts exactly the bodies that are one value and in which no object has a field twice. */
  method ValidateNoDuplicateJSONFields(body: seq<Token>) returns (ok: bool)
    ensures ok <==> exists v :: body == Tokens(v) && DistinctNames(v)
  {
    var d := new Decoder(body);
    ScansOneValue(body, []);
    var scanned := ScanJSONValue(d);
    if scanned {
      var trailing := d.NextToken();
      ok := trailing == Err(EndOfInput);
    } else {
      ok := false;
    }
  }
}
