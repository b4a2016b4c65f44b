/**
 * The translation helper of src/lib/translations.ts: `t(key)` splits a
 * dotted key and walks the nested `translations` table one segment at a
 * time, answering the key itself whenever the walk fails or ends on a
 * section.
 */
module Translations {
  import opened Wrappers
  import opened Strings

  /** A value of the table: a translated text or a section of named values. */
  datatype Node = Leaf(text: string) | Section(children: map<string, Node>)

  /** One step of the walk: `value && typeof value === "object" && k in value`. */
  function Step(n: Node, k: string): Option<Node> {
    if n.Section? && k in n.children then Some(n.children[k]) else None
  }

  /** Where the walk along `path` ends, or `None` if some segment is missing. */
  function Lookup(n: Node, path: seq<string>): Option<Node> {
    if |path| == 0 then Some(n)
    else match Lookup(n, path[..|path| - 1])
      case None => None
      case Some(m) => Step(m, path[|path| - 1])
  }

  /** `t(key)` as a value. */
  function Translate(table: Node, key: string): string {
    match Lookup(table, Split(key, "."))
    case Some(Leaf(s)) => s
    case _ => key
  }

  /** Once the walk has failed it stays failed. */
  lemma {:induction false} LookupNoneExtends(n: Node, path: seq<string>, i: nat)
    requires i <= |path| && Lookup(n, path[..i]) == None
    ensures Lookup(n, path) == None
    decreases |path| - i
  {
    if i < |path| {
      assert path[..i + 1][..i] == path[..i];
      LookupNoneExtends(n, path, i + 1);
    } else {
      assert path[..i] == path;
    }
  }

  /** `t`: the `for` loop with its early return. */
  method T(table: Node, key: string) returns (r: string)
    ensures r == Translate(table, key)
  {
    var keys := Split(key, ".");
    var value := table;
    for i := 0 to |keys|
      invariant Lookup(table, keys[..i]) == Some(value)
    {
      assert keys[..i + 1][..i] == keys[..i];
      if value.Section? && keys[i] in value.children {
        value := value.children[keys[i]];
      } else {
        LookupNoneExtends(table, keys, i + 1);
        return key;
      }
    }
    assert keys[..|keys|] == keys;
    r := if value.Leaf? then value.text else key;
  }

  /** The walk seen from the front: the first segment, then the rest. */
  lemma {:induction false} LookupFront(n: Node, path: seq<string>)
    requires |path| > 0
    ensures Lookup(n, path) == match Step(n, path[0]) case None => None case Some(m) => Lookup(m, path[1..])
    decreases |path|
  {
    if |path| > 1 {
      var init := path[..|path| - 1];
      LookupFront(n, init);
      assert init[1..] == path[1..][..|path[1..]| - 1];
      assert init[0] == path[0];
    }
  }

  /** `s` is the text of some leaf of `n`. */
  predicate HasLeafText(n: Node, s: string) {
    match n
    case Leaf(t) => t == s
    case Section(children) => exists k :: k in children && HasLeafText(children[k], s)
  }

  lemma {:induction false} LookupLeafIsInTable(n: Node, path: seq<string>, s: string)
    requires Lookup(n, path) == Some(Leaf(s))
    ensures HasLeafText(n, s)
    decreases |path|
  {
    if |path| == 0 {
    } else {
      LookupFront(n, path);
      var m := n.children[path[0]];
      LookupLeafIsInTable(m, path[1..], s);
    }
  }

  /** `t` answers either a text of the table or the key itself. */
  lemma TranslateIsLeafOrKey(table: Node, key: string)
    ensures Translate(table, key) == key || HasLeafText(table, Translate(table, key))
  {
    var r := Lookup(table, Split(key, "."));
    if r.Some? && r.value.Leaf? {
      LookupLeafIsInTable(table, Split(key, "."), r.value.text);
    }
  }

  /** A missing segment anywhere on the path gives the key back. */
  lemma MissingSegmentGivesKey(table: Node, key: string, i: nat)
    requires i < |Split(key, ".")|
    requires Lookup(table, Split(key, ".")[..i + 1]) == None
    ensures Translate(table, key) == key
  {
    LookupNoneExtends(table, Split(key, "."), i + 1);
  }

  /** A path ending on a section, and a path that tries to descend below a
      text, both give the key back. */
  lemma SectionOrPastLeafGivesKey(table: Node, key: string, i: nat)
    requires i < |Split(key, ".")|
    ensures Lookup(table, Split(key, ".")).Some? && Lookup(table, Split(key, ".")).value.Section? ==>
      Translate(table, key) == key
    ensures Lookup(table, Split(key, ".")[..i]).Some? && Lookup(table, Split(key, ".")[..i]).value.Leaf? ==>
      Translate(table, key) == key
  {
    var keys := Split(key, ".");
    if Lookup(table, keys[..i]).Some? && Lookup(table, keys[..i]).value.Leaf? {
      assert keys[..i + 1][..i] == keys[..i];
      LookupNoneExtends(table, keys, i + 1);
    }
  }

  // ===== an excerpt of the shipped table =====

  /** Three sections of `translations`, abridged. */
  function Excerpt(): Node {
    Section(map["actions" := ActionsSection(), "auth" := AuthSection(), "app" := AppSection()])
  }

  function ActionsSection(): Node {
    Section(map["edit" := Leaf("Chỉnh sửa"), "delete" := Leaf("Xóa")])
  }

  function AuthSection(): Node {
    Section(map["welcomeBack" := Leaf("Chào mừng trở lại")])
  }

  function AppSection(): Node {
    Section(map["name" := Leaf("Sales Chatbot"), "author" := Leaf("Tuấn Yên Bái")])
  }

  lemma SplitDotted(a: string, b: string)
    requires Avoids(a, '.') && Avoids(b, '.')
    ensures Split(a + "." + b, ".") == [a, b]
  {
    assert Join([a, b], ".") == a + "." + b by { assert [a, b][1..] == [b]; }
    SplitJoinChar([a, b], '.');
  }

  lemma SplitPlain(a: string)
    requires Avoids(a, '.')
    ensures Split(a, ".") == [a]
  {
    SplitJoinChar([a], '.');
  }

  /** A path of two segments takes two steps. */
  lemma TwoSteps(table: Node, a: string, b: string)
    ensures Lookup(table, [a, b]) == match Step(table, a) case None => None case Some(m) => Step(m, b)
  {
    assert [a, b][..1] == [a] && [a][..0] == [];
    assert Lookup(table, [a]) == Step(table, a);
  }

  /** A two-segment key naming a text gives that text (keys are written
      as concatenations of their segments). */
  lemma ExcerptText()
    ensures Translate(Excerpt(), "actions" + "." + "edit") == "Chỉnh sửa"
  {
    SplitDotted("actions", "edit");
    TwoSteps(Excerpt(), "actions", "edit");
    assert Step(Excerpt(), "actions") == Some(ActionsSection());
  }

  /** The same in another section. */
  lemma ExcerptAppName()
    ensures Translate(Excerpt(), "app" + "." + "name") == "Sales Chatbot"
  {
    SplitDotted("app", "name");
    TwoSteps(Excerpt(), "app", "name");
    assert Step(Excerpt(), "app") == Some(AppSection());
  }

  /** A key naming a section gives the key back. */
  lemma ExcerptSection()
    ensures Translate(Excerpt(), "auth") == "auth"
  {
    SplitPlain("auth");
  }

  /** A missing segment gives the key back. */
  lemma ExcerptMissing()
    ensures Translate(Excerpt(), "actions" + "." + "rename") == "actions" + "." + "rename"
  {
    SplitDotted("actions", "rename");
    TwoSteps(Excerpt(), "actions", "rename");
    assert Step(Excerpt(), "actions") == Some(ActionsSection());
  }

  /** Descending below a text gives the key back. */
  lemma ExcerptPastLeaf()
    ensures Translate(Excerpt(), "actions" + "." + "edit" + "." + "x") == "actions" + "." + "edit" + "." + "x"
  {
    var k3 := ["actions", "edit", "x"];
    var key := "actions" + "." + "edit" + "." + "x";
    assert Join(k3, ".") == key by { assert k3[1..] == ["edit", "x"] && k3[1..][1..] == ["x"]; }
    SplitJoinChar(k3, '.');
    assert k3[..2] == ["actions", "edit"];
    TwoSteps(Excerpt(), "actions", "edit");
    assert Step(Excerpt(), "actions") == Some(ActionsSection());
    SectionOrPastLeafGivesKey(Excerpt(), key, 2);
  }
}
