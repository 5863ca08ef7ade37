/** The iterative JSON limiter of the HTTP layer against the recursive definition of size and nesting. */
module JsonLimits {

  datatype Field = Field(key: string, value: Json)
  datatype Json = Scalar(text: string) | List(items: seq<Json>) | Object(fields: seq<Field>)

  const MAX_JSON_VALUES: nat := 10_000
  const MAX_JSON_DEPTH: nat := 64

  datatype Verdict = Accepted | TooManyValues | TooDeep

  // ----- Recursive definition -----

  /** Number of values: the value itself and all values below it; keys do not count. */
  function Count(v: Json): (n: nat)
    ensures n >= 1
    decreases v, 1
  {
    match v
    case Scalar(_) => 1
    case List(items) => 1 + CountItems(items)
    case Object(fields) => 1 + CountFields(fields)
  }

  function CountItems(items: seq<Json>): nat
    decreases items, 0
  {
    if items == [] then 0 else Count(items[0]) + CountItems(items[1..])
  }

  function CountFields(fields: seq<Field>): nat
    decreases fields, 0
  {
    if fields == [] then 0 else Count(fields[0].value) + CountFields(fields[1..])
  }

  function Max(a: nat, b: nat): nat { if a >= b then a else b }

  /** Container nesting: a scalar has none. */
  function Nesting(v: Json): nat
    decreases v, 1
  {
    match v
    case Scalar(_) => 0
    case List(items) => 1 + NestingOfItems(items)
    case Object(fields) => 1 + NestingOfFields(fields)
  }

  function NestingOfItems(items: seq<Json>): nat
    decreases items, 0
  {
    if items == [] then 0 else Max(Nesting(items[0]), NestingOfItems(items[1..]))
  }

  function NestingOfFields(fields: seq<Field>): nat
    decreases fields, 0
  {
    if fields == [] then 0 else Max(Nesting(fields[0].value), NestingOfFields(fields[1..]))
  }

  // ----- The explicit stack -----

  datatype Entry = Entry(value: Json, enclosing: nat)

  function Pending(stack: seq<Entry>): nat {
    if stack == [] then 0 else Count(stack[|stack| - 1].value) + Pending(stack[..|stack| - 1])
  }

  /** The deepest level any entry of the stack reaches. */
  function Reach(stack: seq<Entry>): nat {
    if stack == [] then 0
    else
      var top := stack[|stack| - 1];
      Max(if top.value.Scalar? then 0 else top.enclosing + Nesting(top.value), Reach(stack[..|stack| - 1]))
  }

  function Children(v: Json): seq<Json> {
    match v
    case Scalar(_) => []
    case List(items) => items
    case Object(fields) => seq(|fields|, i requires 0 <= i < |fields| => fields[i].value)
  }

  function Entries(values: seq<Json>, depth: nat): seq<Entry> {
    seq(|values|, i requires 0 <= i < |values| => Entry(values[i], depth))
  }

  lemma {:induction false} FieldsAsItems(fields: seq<Field>)
    ensures CountFields(fields) == CountItems(Children(Object(fields)))
    ensures NestingOfFields(fields) == NestingOfItems(Children(Object(fields)))
  {
    if fields != [] {
      FieldsAsItems(fields[1..]);
      assert Children(Object(fields))[1..] == Children(Object(fields[1..]));
    }
  }

  lemma ChildrenAddUp(v: Json)
    requires !v.Scalar?
    ensures Count(v) == 1 + CountItems(Children(v)) && Nesting(v) == 1 + NestingOfItems(Children(v))
  {
    if v.Object? { FieldsAsItems(v.fields); }
  }

  lemma {:induction false} CountSplit(items: seq<Json>)
    requires items != []
    ensures CountItems(items) == CountItems(items[..|items| - 1]) + Count(items[|items| - 1])
    ensures NestingOfItems(items) == Max(NestingOfItems(items[..|items| - 1]), Nesting(items[|items| - 1]))
  {
    if |items| > 1 {
      CountSplit(items[1..]);
      assert items[1..][..|items| - 2] == items[..|items| - 1][1..];
    }
  }

  /** Pushing the children of a container at depth `depth`. */
  lemma {:induction false} PushCounts(stack: seq<Entry>, values: seq<Json>, depth: nat)
    ensures Pending(stack + Entries(values, depth)) == Pending(stack) + CountItems(values)
    decreases |values|
  {
    if values == [] {
      assert stack + Entries(values, depth) == stack;
    } else {
      var init := values[..|values| - 1];
      var all := stack + Entries(values, depth);
      PushCounts(stack, init, depth);
      CountSplit(values);
      assert all[..|all| - 1] == stack + Entries(init, depth);
    }
  }

  lemma {:induction false} PushReaches(stack: seq<Entry>, values: seq<Json>, depth: nat)
    requires depth >= 1
    ensures Max(depth, Reach(stack + Entries(values, depth))) == Max(Reach(stack), depth + NestingOfItems(values))
    decreases |values|
  {
    if values == [] {
      assert stack + Entries(values, depth) == stack;
    } else {
      var init := values[..|values| - 1];
      var all := stack + Entries(values, depth);
      PushReaches(stack, init, depth);
      CountSplit(values);
      assert all[..|all| - 1] == stack + Entries(init, depth);
      assert all[|all| - 1] == Entry(values[|values| - 1], depth);
    }
  }

  /** The stack loop accepts a value exactly when its count and its nesting are within the limits. */
  method ValidateJsonLimits(value: Json, maxValues: nat, maxDepth: nat) returns (verdict: Verdict)
    ensures verdict.Accepted? <==> Count(value) <= maxValues && Nesting(value) <= maxDepth
    ensures verdict.TooManyValues? ==> Count(value) > maxValues
    ensures verdict.TooDeep? ==> Nesting(value) > maxDepth
  {
    var stack := [Entry(value, 0)];
    var count := 0;
    ghost var seen: nat := 0;
    assert stack[..0] == [];
    while stack != []
      invariant count + Pending(stack) == Count(value) && count <= maxValues
      invariant seen <= maxDepth && Max(seen, Reach(stack)) == Nesting(value)
      decreases Pending(stack)
    {
      var entry := stack[|stack| - 1];
      stack := stack[..|stack| - 1];
      count := count + 1;
      if count > maxValues { return TooManyValues; }
      if !entry.value.Scalar? {
        var depth := entry.enclosing + 1;
        ChildrenAddUp(entry.value);
        if depth > maxDepth { return TooDeep; }
        PushCounts(stack, Children(entry.value), depth);
        PushReaches(stack, Children(entry.value), depth);
        seen := Max(seen, depth);
        stack := stack + Entries(Children(entry.value), depth);
      }
    }
    return Accepted;
  }

  /** With the server's constants. */
  method StrictJsonLimits(value: Json) returns (accepted: bool)
    ensures accepted <==> Count(value) <= 10_000 && Nesting(value) <= 64
  {
    var verdict := ValidateJsonLimits(value, MAX_JSON_VALUES, MAX_JSON_DEPTH);
    return verdict.Accepted?;
  }
}
