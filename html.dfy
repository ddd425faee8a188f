/**
 * The parsed page as the analyzer queries it through goquery: the element
 * nodes in document order, and the few CSS selector forms the analyzer uses.
 */
module Html {
  import opened Wrappers
  import opened Text

  /** One attribute of an element, as the HTML parser lists it. */
  datatype Attr = Attr(key: string, val: string)

  /**
   * An element node: its tag name, its attributes in source order, its text
   * content (the text of all the text nodes inside it, in order) and the
   * elements nested inside it in document order.
   */
  datatype Element = Element(tag: string, attrs: seq<Attr>, text: string, descendants: seq<Element>)

  /** Every element of the page, in document order. */
  type Document = seq<Element>

  predicate HasAttr(attrs: seq<Attr>, key: string)
  {
    exists i :: 0 <= i < |attrs| && attrs[i].key == key
  }

  /** `i` is the position of the first attribute called `key`. */
  predicate FirstWithKey(attrs: seq<Attr>, key: string, i: int)
  {
    0 <= i < |attrs| && attrs[i].key == key && forall j :: 0 <= j < i ==> attrs[j].key != key
  }

  /** Selection.Attr: the value of the first attribute called `key`, if any. */
  function AttrValue(attrs: seq<Attr>, key: string): (v: Option<string>)
    ensures v.Some? <==> HasAttr(attrs, key)
    ensures v.Some? ==> Attr(key, v.value) in attrs
    ensures v.Some? ==> exists i :: FirstWithKey(attrs, key, i) && attrs[i].val == v.value
  {
    if attrs == [] then None
    else if attrs[0].key == key then
      assert FirstWithKey(attrs, key, 0);
      Some(attrs[0].val)
    else
      var v := AttrValue(attrs[1..], key);
      assert v.Some? ==> exists i :: FirstWithKey(attrs, key, i) && attrs[i].val == v.value by {
        if v.Some? {
          var i :| FirstWithKey(attrs[1..], key, i) && attrs[1..][i].val == v.value;
          FirstWithKeyShift(attrs, key, i);
        }
      }
      assert HasAttr(attrs, key) ==> HasAttr(attrs[1..], key) by {
        if HasAttr(attrs, key) {
          var i :| 0 <= i < |attrs| && attrs[i].key == key;
          assert attrs[1..][i - 1].key == key;
        }
      }
      assert HasAttr(attrs[1..], key) ==> HasAttr(attrs, key) by {
        if HasAttr(attrs[1..], key) {
          var i :| 0 <= i < |attrs[1..]| && attrs[1..][i].key == key;
          assert attrs[i + 1].key == key;
        }
      }
      v
  }

  /** A first match after a non-matching head is the first match of the whole list, one place on. */
  lemma FirstWithKeyShift(attrs: seq<Attr>, key: string, i: int)
    requires |attrs| > 0 && attrs[0].key != key && FirstWithKey(attrs[1..], key, i)
    ensures FirstWithKey(attrs, key, i + 1) && attrs[i + 1] == attrs[1..][i]
  {
    assert forall j :: 1 <= j < i + 1 ==> attrs[j] == attrs[1..][j - 1];
  }

  /** The selector forms the analyzer uses. */
  datatype Selector =
    | Tag(name: string)                                   // name
    | AnyTag(names: set<string>)                          // a, b, c
    | TagWithAttr(name: string, key: string)              // name[key]
    | AttrEquals(name: string, key: string, val: string)  // name[key='val']
    | AttrContains(name: string, key: string, sub: string) // name[key*='sub']

  predicate Matches(sel: Selector, e: Element)
  {
    match sel
    case Tag(n) => e.tag == n
    case AnyTag(ns) => e.tag in ns
    case TagWithAttr(n, k) => e.tag == n && HasAttr(e.attrs, k)
    case AttrEquals(n, k, v) => e.tag == n && Attr(k, v) in e.attrs
    case AttrContains(n, k, sub) => e.tag == n && exists a :: a in e.attrs && a.key == k && Contains(a.val, sub)
  }

  /** Find: the matching elements among `nodes`, keeping document order. */
  function Find(nodes: seq<Element>, sel: Selector): (found: seq<Element>)
    ensures |found| <= |nodes|
    ensures forall i :: 0 <= i < |found| ==> Matches(sel, found[i])
  {
    if nodes == [] then []
    else
      var init := nodes[..|nodes| - 1];
      var last := nodes[|nodes| - 1];
      assert nodes == init + [last];
      var rest := Find(init, sel);
      if Matches(sel, last) then rest + [last] else rest
  }

  /** The selection holds exactly the matching nodes. */
  lemma {:induction false} FindMembers(nodes: seq<Element>, sel: Selector)
    ensures forall e :: e in Find(nodes, sel) <==> e in nodes && Matches(sel, e)
  {
    if nodes != [] {
      var init := nodes[..|nodes| - 1];
      assert nodes == init + [nodes[|nodes| - 1]];
      FindMembers(init, sel);
    }
  }

  /** Adding a node at the end adds it to the selection exactly when it matches. */
  lemma FindSnoc(nodes: seq<Element>, last: Element, sel: Selector)
    ensures Find(nodes + [last], sel) == Find(nodes, sel) + (if Matches(sel, last) then [last] else [])
  {
    assert (nodes + [last])[..|nodes|] == nodes;
  }

  /** A selection is non-empty exactly when some node matches. */
  lemma FindNonEmpty(nodes: seq<Element>, sel: Selector)
    ensures |Find(nodes, sel)| > 0 <==> exists e :: e in nodes && Matches(sel, e)
  {
    var found := Find(nodes, sel);
    FindMembers(nodes, sel);
    if |found| > 0 {
      assert found[0] in found;
    }
  }

  /** Selection.Text: the text of the selected elements, concatenated in order. */
  function CombinedText(selection: seq<Element>): (t: string)
    ensures selection == [] ==> t == ""
    ensures forall i :: 0 <= i < |selection| ==> |selection[i].text| <= |t|
  {
    if selection == [] then ""
    else CombinedText(selection[..|selection| - 1]) + selection[|selection| - 1].text
  }

  /** The text of a selection is the text of its first part followed by the text of the rest. */
  lemma {:induction false} CombinedTextAppend(xs: seq<Element>, ys: seq<Element>)
    ensures CombinedText(xs + ys) == CombinedText(xs) + CombinedText(ys)
    decreases |ys|
  {
    if ys == [] {
      assert xs + ys == xs;
    } else {
      var init := ys[..|ys| - 1];
      assert (xs + ys)[..|xs + ys| - 1] == xs + init;
      CombinedTextAppend(xs, init);
    }
  }

  /** Read from the front: the first element's text, then the text of the rest. */
  lemma CombinedTextCons(e: Element, rest: seq<Element>)
    ensures CombinedText([e] + rest) == e.text + CombinedText(rest)
  {
    CombinedTextAppend([e], rest);
    assert CombinedText([e]) == CombinedText([]) + e.text;
  }
}
