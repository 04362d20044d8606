/**
 * The part of the platform's drag data store the handlers use: the list of
 * declared formats (`types`), the string stored under each format, and the
 * allowed effect.
 */
module DragData {

  /** `types` with every occurrence of `format` removed; the other formats
      keep their order and their number of occurrences. */
  function Without(types: seq<string>, format: string): (r: seq<string>)
    ensures format !in r
    ensures forall t :: t in r <==> t in types && t != format
    ensures multiset(r) == multiset(types)[format := 0]
  {
    if types == [] then []
    else
      var rest := Without(types[1..], format);
      assert types == [types[0]] + types[1..];
      if types[0] == format then rest else [types[0]] + rest
  }

  /** Removal works piecewise, so the kept formats stay in their order. */
  lemma {:induction false} WithoutConcat(a: seq<string>, b: seq<string>, format: string)
    ensures Without(a + b, format) == Without(a, format) + Without(b, format)
  {
    if a == [] {
      assert a + b == b;
    } else {
      assert (a + b)[1..] == a[1..] + b;
      WithoutConcat(a[1..], b, format);
    }
  }

  /** A format that is not declared leaves the list as it is. */
  lemma {:induction false} WithoutAbsent(types: seq<string>, format: string)
    requires format !in types
    ensures Without(types, format) == types
  {
    if types != [] {
      WithoutAbsent(types[1..], format);
      assert types == [types[0]] + types[1..];
    }
  }

  /** The declared formats after `setData(format, ...)`: an existing entry
      for `format` is dropped and `format` is declared last. */
  function WithFormat(types: seq<string>, format: string): (r: seq<string>)
    ensures r == Without(types, format) + [format]
    ensures |r| > 0 && r[|r| - 1] == format
    ensures multiset(r) == multiset(types)[format := 1]
    ensures forall t :: t in r <==> t in types || t == format
  {
    Without(types, format) + [format]
  }

  class DataTransfer {
    var types: seq<string>
    var items: map<string, string>
    var effectAllowed: string

    /** `types` lists exactly the formats that hold data, each once. */
    ghost predicate Valid()
      reads this
    {
      && (forall f :: f in types <==> f in items)
      && (forall f :: multiset(types)[f] <= 1)
    }

    /** The empty store a drag gesture starts with. */
    constructor()
      ensures Valid()
      ensures types == [] && items == map[] && effectAllowed == "uninitialized"
    {
      types, items, effectAllowed := [], map[], "uninitialized";
    }

    /** `getData`: the stored string, or the empty string when nothing is
        stored under `format`. */
    function GetData(format: string): (r: string)
      reads this
      ensures format in items ==> r == items[format]
      ensures format !in items ==> r == ""
    {
      if format in items then items[format] else ""
    }

    /** `setData`: stores `data` under `format` and declares the format. */
    method SetData(format: string, data: string)
      requires Valid()
      modifies this
      ensures Valid()
      ensures items == old(items)[format := data]
      ensures types == WithFormat(old(types), format)
      ensures effectAllowed == old(effectAllowed)
      ensures GetData(format) == data
      ensures forall other :: other != format ==> GetData(other) == old(GetData(other))
    {
      items := items[format := data];
      types := WithFormat(types, format);
    }
  }
}
