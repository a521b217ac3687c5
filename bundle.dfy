/**
 * The plain-text release bundle: pages grouped by category in the order the
 * categories first appear, each decrypted page rendered as `Label: value`
 * lines, and a placeholder for each page that does not decrypt.
 *
 * The automatic release (releaseService.js formatDataForEmail) and the
 * release screen (ReleaseDataModal.jsx loadAndFormatData) render the same
 * bundle; they differ only in the sentence under the date line, which is a
 * parameter here.
 */
module Bundle {
  import opened Wrappers
  import opened Records
  import opened JsText

  /** CATEGORY_NAMES, falling back to the raw category id. */
  function DisplayName(category: string): string
  {
    if category == "digital-accounts" then "Digital Accounts"
    else if category == "financial-assets" then "Financial Assets"
    else if category == "key-contacts" then "Key Contacts"
    else if category == "end-of-life-wishes" then "End-of-Life Wishes"
    else category
  }

  /* ---------------- Grouping ---------------- */

  /** The distinct categories of `ps`, each where it first appears. */
  function Categories(ps: seq<Page>): (cs: seq<string>)
    ensures forall i, j :: 0 <= i < j < |cs| ==> cs[i] != cs[j]
    ensures forall c :: c in cs <==> exists i :: 0 <= i < |ps| && ps[i].category == c
  {
    if ps == [] then []
    else
      var cs := Categories(ps[..|ps| - 1]);
      var c := ps[|ps| - 1].category;
      assert forall i :: 0 <= i < |ps| - 1 ==> ps[..|ps| - 1][i] == ps[i];
      if c in cs then cs else cs + [c]
  }

  /** The pages of one category, in input order. */
  function Group(ps: seq<Page>, c: string): (g: seq<Page>)
    ensures forall i :: 0 <= i < |g| ==> g[i].category == c
  {
    if ps == [] then []
    else
      var g := Group(ps[..|ps| - 1], c);
      if ps[|ps| - 1].category == c then g + [ps[|ps| - 1]] else g
  }

  /** Some page before position `j` has category `c`. */
  predicate SeenBefore(ps: seq<Page>, j: int, c: string)
    requires 0 <= j <= |ps|
  {
    exists i :: 0 <= i < j && ps[i].category == c
  }

  /**
   * Categories appear in order of first appearance: for categories a before b,
   * every page of b is preceded by some page of a.
   */
  lemma {:induction false} CategoriesInFirstAppearanceOrder(ps: seq<Page>)
    ensures forall a, b, j :: 0 <= a < b < |Categories(ps)| && 0 <= j < |ps| && ps[j].category == Categories(ps)[b] ==>
      SeenBefore(ps, j, Categories(ps)[a])
  {
    if ps != [] {
      var init := ps[..|ps| - 1];
      var x := ps[|ps| - 1];
      CategoriesInFirstAppearanceOrder(init);
      var cs0 := Categories(init);
      var cs := Categories(ps);
      forall a, b, j | 0 <= a < b < |cs| && 0 <= j < |ps| && ps[j].category == cs[b]
        ensures SeenBefore(ps, j, cs[a])
      {
        if b < |cs0| {
          assert cs[a] == cs0[a] && cs[b] == cs0[b];
          if j < |ps| - 1 {
            assert init[j].category == cs0[b];
            assert SeenBefore(init, j, cs0[a]);
            var i :| 0 <= i < j && init[i].category == cs0[a];
            assert ps[i].category == cs[a];
          } else {
            assert cs0[b] in cs0;
            var j0 :| 0 <= j0 < |init| && init[j0].category == cs0[b];
            assert SeenBefore(init, j0, cs0[a]);
            var i :| 0 <= i < j0 && init[i].category == cs0[a];
            assert ps[i].category == cs[a];
          }
        } else {
          assert cs == cs0 + [x.category] && cs[b] == x.category && x.category !in cs0;
          forall jj | 0 <= jj < |init|
            ensures ps[jj].category != x.category
          {
            assert init[jj] == ps[jj];
          }
          assert j == |ps| - 1;
          assert cs[a] in cs0;
          var i :| 0 <= i < |init| && init[i].category == cs[a];
          assert ps[i].category == cs[a];
        }
      }
    }
  }

  /** A category that does not occur has an empty group. */
  lemma {:induction false} GroupOfAbsent(ps: seq<Page>, c: string)
    requires c !in Categories(ps)
    ensures Group(ps, c) == []
  {
    if ps != [] {
      var init := ps[..|ps| - 1];
      assert forall i :: 0 <= i < |init| ==> init[i] == ps[i];
      GroupOfAbsent(init, c);
    }
  }

  /** The groups of `cats`, one after the other. */
  function Flatten(ps: seq<Page>, cats: seq<string>): seq<Page>
  {
    if cats == [] then [] else Flatten(ps, cats[..|cats| - 1]) + Group(ps, cats[|cats| - 1])
  }

  lemma {:induction false} FlattenAppendPage(ps: seq<Page>, x: Page, cats: seq<string>)
    requires forall i, j :: 0 <= i < j < |cats| ==> cats[i] != cats[j]
    ensures multiset(Flatten(ps + [x], cats)) ==
      multiset(Flatten(ps, cats)) + (if x.category in cats then multiset{x} else multiset{})
  {
    if cats != [] {
      var init := cats[..|cats| - 1];
      var c := cats[|cats| - 1];
      FlattenAppendPage(ps, x, init);
      assert (ps + [x])[..|ps + [x]| - 1] == ps;
      assert x.category in cats <==> x.category in init || x.category == c;
      assert x.category == c ==> x.category !in init;
    }
  }

  /** Every page lands in exactly one group: the groups together are a permutation of the pages. */
  lemma {:induction false} GroupsPartitionPages(ps: seq<Page>)
    ensures multiset(Flatten(ps, Categories(ps))) == multiset(ps)
  {
    if ps != [] {
      var init := ps[..|ps| - 1];
      var x := ps[|ps| - 1];
      assert ps == init + [x];
      GroupsPartitionPages(init);
      var cs0 := Categories(init);
      FlattenAppendPage(init, x, cs0);
      if x.category !in cs0 {
        GroupOfAbsent(init, x.category);
        assert Categories(ps) == cs0 + [x.category];
        assert Flatten(ps, cs0 + [x.category]) == Flatten(ps, cs0) + Group(ps, x.category);
        assert Group(ps, x.category) == [x];
      }
    }
  }

  /* ---------------- Rendering ---------------- */

  predicate IsCapital(c: char) {
    'A' <= c <= 'Z'
  }

  /** `key.replace(/([A-Z])/g, ' $1')`: a space inserted before every capital letter. */
  function SpaceBeforeCapitals(k: string): (r: string)
    ensures |r| >= |k|
    ensures k != [] ==> r != [] && r[|r| - 1] == k[|k| - 1]
  {
    if k == [] then []
    else (if IsCapital(k[0]) then [' ', k[0]] else [k[0]]) + SpaceBeforeCapitals(k[1..])
  }

  /** `.replace(/^./, str => str.toUpperCase())`: the first character upper-cased unless it is a line terminator. */
  function CapitalizeFirst(s: string): (r: string)
  {
    if s == [] || IsLineTerminator(s[0]) then s else [UpperChar(s[0])] + s[1..]
  }

  /** The label printed for a property name. */
  function Label(k: string): string
  {
    Trim(CapitalizeFirst(SpaceBeforeCapitals(k)))
  }

  /** `s` without its spaces. */
  function Unspaced(s: string): string
  {
    if s == [] then [] else (if s[0] == ' ' then [] else [s[0]]) + Unspaced(s[1..])
  }

  lemma {:induction false} UnspacedSpaced(k: string)
    requires ' ' !in k
    ensures Unspaced(SpaceBeforeCapitals(k)) == k
  {
    if k != [] {
      assert ' ' !in k[1..] && k[0] != ' ';
      UnspacedSpaced(k[1..]);
      var head := if IsCapital(k[0]) then [' ', k[0]] else [k[0]];
      assert SpaceBeforeCapitals(k) == head + SpaceBeforeCapitals(k[1..]);
      UnspacedAppend(head, SpaceBeforeCapitals(k[1..]));
      assert Unspaced(head) == [k[0]] by {
        if IsCapital(k[0]) {
          assert head[1..] == [k[0]] && [k[0]][1..] == [];
        } else {
          assert head[1..] == [];
        }
      }
      assert [k[0]] + k[1..] == k;
    }
  }

  lemma {:induction false} UnspacedAppend(a: string, b: string)
    ensures Unspaced(a + b) == Unspaced(a) + Unspaced(b)
  {
    if a != [] {
      var ab := a + b;
      assert ab != [] && ab[0] == a[0];
      assert ab[1..] == a[1..] + b;
      UnspacedAppend(a[1..], b);
      var head: string := if a[0] == ' ' then [] else [a[0]];
      assert Unspaced(ab) == head + Unspaced(ab[1..]);
      assert Unspaced(a) == head + Unspaced(a[1..]);
    } else {
      assert a + b == b;
    }
  }

  /** A camelCase property name: a lower-case letter followed by letters and digits. */
  predicate IsCamelCase(k: string) {
    && k != [] && 'a' <= k[0] <= 'z'
    && forall i :: 0 <= i < |k| ==> ('a' <= k[i] <= 'z') || IsCapital(k[i]) || ('0' <= k[i] <= '9')
  }

  /**
   * For a camelCase name the label is the name with its first letter
   * capitalised and a space before every later capital, and removing those
   * spaces gives the capitalised name back.
   */
  lemma LabelOfCamelCase(k: string)
    requires IsCamelCase(k)
    ensures Label(k) == [UpperChar(k[0])] + SpaceBeforeCapitals(k[1..])
    ensures Unspaced(Label(k)) == [UpperChar(k[0])] + k[1..]
  {
    var head, tail := [UpperChar(k[0])], SpaceBeforeCapitals(k[1..]);
    CamelCapitalized(k);
    TrimNonBlank(head + tail);
    assert Label(k) == head + tail;
    CamelTailHasNoSpace(k);
    UnspacedSpaced(k[1..]);
    UnspacedAppend(head, tail);
    assert Unspaced(head) == head by {
      assert head[1..] == [];
    }
  }

  /** Before trimming, a camelCase label starts with the capitalised first letter and ends in a letter or digit. */
  lemma CamelCapitalized(k: string)
    requires IsCamelCase(k)
    ensures var cap := [UpperChar(k[0])] + SpaceBeforeCapitals(k[1..]);
      && CapitalizeFirst(SpaceBeforeCapitals(k)) == cap
      && !IsWhitespace(cap[0]) && !IsWhitespace(cap[|cap| - 1])
  {
    var tail := SpaceBeforeCapitals(k[1..]);
    assert SpaceBeforeCapitals(k) == [k[0]] + tail;
    var cap := [UpperChar(k[0])] + tail;
    var last := k[|k| - 1];
    if |k| > 1 {
      assert tail[|tail| - 1] == k[1..][|k[1..]| - 1] == last;
      assert cap[|cap| - 1] == last;
    } else {
      assert tail == [] && cap[|cap| - 1] == UpperChar(k[0]);
    }
    AlphanumericIsNotWhitespace(UpperChar(k[0]));
    AlphanumericIsNotWhitespace(last);
  }

  lemma AlphanumericIsNotWhitespace(c: char)
    requires ('a' <= c <= 'z') || IsCapital(c) || ('0' <= c <= '9')
    ensures !IsWhitespace(c)
  {
  }

  lemma CamelTailHasNoSpace(k: string)
    requires IsCamelCase(k)
    ensures ' ' !in k[1..]
  {
    forall i | 0 <= i < |k[1..]|
      ensures k[1..][i] != ' '
    {
      assert k[1..][i] == k[i + 1];
    }
  }

  /** `${value}` in a template literal. */
  function Show(v: Value): string
  {
    match v
    case Str(s) => s
    case Num(n) => IntToString(n)
    case Null => "null"
  }

  /** One property of a decrypted page: nothing when falsy, a block when the value is multi-line, one line otherwise. */
  function RenderField(k: string, v: Value): (r: string)
  {
    if !Truthy(v) then ""
    else if v.Str? && '\n' in v.s then Label(k) + ":\n" + v.s + "\n\n"
    else Label(k) + ": " + Show(v) + "\n"
  }

  function RenderEntry(e: Entry): string
  {
    if e == [] then "" else RenderEntry(e[..|e| - 1]) + RenderField(e[|e| - 1].0, e[|e| - 1].1)
  }

  /** Falsy properties contribute nothing: rendering an entry equals rendering its truthy properties. */
  lemma {:induction false} FalsyFieldsOmitted(e: Entry)
    ensures RenderEntry(e) == RenderEntry(TruthyFields(e))
  {
    if e != [] {
      var init := e[..|e| - 1];
      var last := e[|e| - 1];
      assert e == init + [last];
      var t := TruthyFields(init);
      assert RenderEntry(init) == RenderEntry(t) by {
        FalsyFieldsOmitted(init);
      }
      assert RenderEntry(e) == RenderEntry(init) + RenderField(last.0, last.1) by {
        RenderEntrySnoc(init, last);
      }
      if Truthy(last.1) {
        assert TruthyFields(e) == t + [last] by {
          TruthyFieldsAppend(init, last);
        }
        RenderEntrySnoc(t, last);
      } else {
        assert TruthyFields(e) == t by {
          TruthyFieldsAppend(init, last);
          assert t + [] == t;
        }
        assert RenderField(last.0, last.1) == "";
        assert RenderEntry(init) + "" == RenderEntry(init);
      }
    }
  }

  lemma RenderEntrySnoc(init: Entry, x: (string, Value))
    ensures RenderEntry(init + [x]) == RenderEntry(init) + RenderField(x.0, x.1)
  {
    var e := init + [x];
    assert e[..|e| - 1] == init;
  }

  function TruthyFields(e: Entry): (r: Entry)
    ensures forall i :: 0 <= i < |r| ==> Truthy(r[i].1)
  {
    if e == [] then [] else (if Truthy(e[0].1) then [e[0]] else []) + TruthyFields(e[1..])
  }

  lemma {:induction false} TruthyFieldsAppend(e: Entry, x: (string, Value))
    ensures TruthyFields(e + [x]) == TruthyFields(e) + (if Truthy(x.1) then [x] else [])
  {
    if e != [] {
      assert (e + [x])[1..] == e[1..] + [x];
      TruthyFieldsAppend(e[1..], x);
    }
  }

  const ErrorBlock := "[Error decrypting entry]\n\n"

  /** One page: its rendered properties and a rule of 30 dashes, or the placeholder when decryption throws. */
  function PageBlock(p: Page, decrypt: Page -> Option<Entry>): string
  {
    match decrypt(p)
    case None => ErrorBlock
    case Some(e) => RenderEntry(e) + Repeat('-', 30) + "\n\n"
  }

  function Blocks(ps: seq<Page>, decrypt: Page -> Option<Entry>): string
  {
    if ps == [] then "" else Blocks(ps[..|ps| - 1], decrypt) + PageBlock(ps[|ps| - 1], decrypt)
  }

  lemma BlocksSnoc(ps: seq<Page>, decrypt: Page -> Option<Entry>)
    requires ps != []
    ensures Blocks(ps, decrypt) == Blocks(ps[..|ps| - 1], decrypt) + PageBlock(ps[|ps| - 1], decrypt)
  {
  }

  lemma {:induction false} BlocksAppend(a: seq<Page>, b: seq<Page>, decrypt: Page -> Option<Entry>)
    ensures Blocks(a + b, decrypt) == Blocks(a, decrypt) + Blocks(b, decrypt)
    decreases |b|
  {
    if b != [] {
      var b0 := b[..|b| - 1];
      var ab := a + b;
      assert ab[..|ab| - 1] == a + b0;
      assert ab[|ab| - 1] == b[|b| - 1];
      var last := PageBlock(b[|b| - 1], decrypt);
      BlocksAppend(a, b0, decrypt);
      BlocksSnoc(ab, decrypt);
      BlocksSnoc(b, decrypt);
      AppendAssoc(Blocks(a, decrypt), Blocks(b0, decrypt), last);
    } else {
      assert a + b == a;
    }
  }

  /**
   * A page that fails to decrypt yields exactly the placeholder, and the
   * pages before and after it are rendered as if it were not there.
   */
  lemma FailedPageIsPlaceholder(ps: seq<Page>, i: nat, decrypt: Page -> Option<Entry>)
    requires i < |ps| && decrypt(ps[i]).None?
    ensures Blocks(ps, decrypt) == Blocks(ps[..i], decrypt) + ErrorBlock + Blocks(ps[i + 1..], decrypt)
  {
    SplitAround(ps, i);
    BlocksAppend(ps[..i] + [ps[i]], ps[i + 1..], decrypt);
    BlocksPush(ps[..i], ps[i], decrypt);
  }

  lemma SplitAround<T>(ps: seq<T>, i: nat)
    requires i < |ps|
    ensures ps[..i] + [ps[i]] + ps[i + 1..] == ps
  {
  }

  lemma BlocksPush(init: seq<Page>, p: Page, decrypt: Page -> Option<Entry>)
    ensures Blocks(init + [p], decrypt) == Blocks(init, decrypt) + PageBlock(p, decrypt)
  {
    var ps := init + [p];
    assert ps[..|ps| - 1] == init;
    BlocksSnoc(ps, decrypt);
  }

  /** The heading of a category: its display name upper-cased between a newline and a rule of 50 dashes. */
  function Heading(category: string): string
  {
    "\n" + ToUpper(DisplayName(category)) + "\n" + Repeat('-', 50) + "\n\n"
  }

  function Sections(ps: seq<Page>, cats: seq<string>, decrypt: Page -> Option<Entry>): string
  {
    if cats == [] then ""
    else Sections(ps, cats[..|cats| - 1], decrypt) + (Heading(cats[|cats| - 1]) + Blocks(Group(ps, cats[|cats| - 1]), decrypt))
  }

  const Title := "LEGACY ORGANIZER - INFORMATION RELEASE\n"

  function Banner(notice: string, dateLine: string): string
  {
    Title + Repeat('=', 50) + "\n\n"
    + "Release Date: " + dateLine + "\n"
    + notice + "\n\n"
    + Repeat('=', 50) + "\n\n"
  }

  const Footer := "\n" + Repeat('=', 50) + "\n" + "END OF INFORMATION RELEASE\n"

  /** The whole bundle. */
  function Render(notice: string, dateLine: string, ps: seq<Page>, decrypt: Page -> Option<Entry>): string
  {
    Banner(notice, dateLine) + Sections(ps, Categories(ps), decrypt) + Footer
  }

  /** The bundle always opens with the title and the banner and closes with the end marker. */
  lemma RenderFrame(notice: string, dateLine: string, ps: seq<Page>, decrypt: Page -> Option<Entry>)
    ensures var r := Render(notice, dateLine, ps, decrypt);
      && |r| >= |Banner(notice, dateLine)| + |Footer|
      && r[..|Title|] == Title
      && r[..|Banner(notice, dateLine)|] == Banner(notice, dateLine)
      && r[|r| - |Footer|..] == Footer
  {
    var b := Banner(notice, dateLine);
    var r := Render(notice, dateLine, ps, decrypt);
    assert r[..|b|] == b;
    assert b[..|Title|] == Title;
  }

  /* ---------------- The renderer as the source runs it ---------------- */

  lemma AppendAssoc(a: string, b: string, c: string)
    ensures (a + b) + c == a + (b + c)
  {
  }

  /** What GroupByCategory keeps after the pages `ps`: the key order and the groups of `ps`. */
  predicate Grouped(ps: seq<Page>, order: seq<string>, groups: map<string, seq<Page>>) {
    && order == Categories(ps)
    && groups.Keys == (set c | c in order)
    && forall c :: c in groups ==> groups[c] == Group(ps, c)
  }

  /** One more page: its category is added to the order when new, and the page is appended to its group. */
  lemma GroupingStep(ps: seq<Page>, p: Page, order: seq<string>, groups: map<string, seq<Page>>)
    requires Grouped(ps, order, groups)
    ensures var known := p.category in groups;
      var started := if known then groups else groups[p.category := []];
      Grouped(ps + [p], if known then order else order + [p.category], started[p.category := started[p.category] + [p]])
  {
    var qs := ps + [p];
    assert qs[..|qs| - 1] == ps;
    if p.category !in groups {
      GroupOfAbsent(ps, p.category);
    }
  }

  /** Builds `pagesByCategory` in place: a dictionary of groups and the order its keys were inserted. */
  method GroupByCategory(pages: seq<Page>) returns (order: seq<string>, pagesByCategory: map<string, seq<Page>>)
    ensures order == Categories(pages)
    ensures pagesByCategory.Keys == set c | c in order
    ensures forall c :: c in pagesByCategory ==> pagesByCategory[c] == Group(pages, c)
  {
    order, pagesByCategory := [], map[];
    for i := 0 to |pages|
      invariant Grouped(pages[..i], order, pagesByCategory)
    {
      var page := pages[i];
      GroupingStep(pages[..i], page, order, pagesByCategory);
      assert pages[..i + 1] == pages[..i] + [page];
      if page.category !in pagesByCategory {
        pagesByCategory := pagesByCategory[page.category := []];
        order := order + [page.category];
      }
      pagesByCategory := pagesByCategory[page.category := pagesByCategory[page.category] + [page]];
    }
    assert pages[..|pages|] == pages;
  }

  /** The `Label: value` lines of one decrypted page, accumulated property by property. */
  method FormatEntry(decrypted: Entry) returns (entryFormatted: string)
    ensures entryFormatted == RenderEntry(decrypted)
  {
    entryFormatted := "";
    for f := 0 to |decrypted|
      invariant entryFormatted == RenderEntry(decrypted[..f])
    {
      var (key, value) := decrypted[f];
      assert decrypted[..f + 1][..f] == decrypted[..f];
      if Truthy(value) {
        var fieldLabel := Label(key);
        if value.Str? && '\n' in value.s {
          entryFormatted := entryFormatted + (fieldLabel + ":\n" + value.s + "\n\n");
        } else {
          entryFormatted := entryFormatted + (fieldLabel + ": " + Show(value) + "\n");
        }
      }
    }
    assert decrypted[..|decrypted|] == decrypted;
  }

  /** The pages of one category; a page that does not decrypt adds the placeholder and the loop goes on. */
  method FormatPages(categoryPages: seq<Page>, decrypt: Page -> Option<Entry>) returns (text: string)
    ensures text == Blocks(categoryPages, decrypt)
  {
    text := "";
    for j := 0 to |categoryPages|
      invariant text == Blocks(categoryPages[..j], decrypt)
    {
      var page := categoryPages[j];
      assert Blocks(categoryPages[..j + 1], decrypt) == Blocks(categoryPages[..j], decrypt) + PageBlock(page, decrypt) by {
        assert categoryPages[..j + 1][..j] == categoryPages[..j];
      }
      match decrypt(page) {
        case None =>
          text := text + ErrorBlock;
        case Some(decrypted) =>
          var entryFormatted := FormatEntry(decrypted);
          text := text + (entryFormatted + Repeat('-', 30) + "\n\n");
      }
    }
    assert categoryPages[..|categoryPages|] == categoryPages;
  }

  /** Renders the bundle by appending to a string, as the source does. */
  method RenderBundle(notice: string, dateLine: string, pages: seq<Page>, decrypt: Page -> Option<Entry>)
    returns (formatted: string)
    ensures formatted == Render(notice, dateLine, pages, decrypt)
  {
    var order, pagesByCategory := GroupByCategory(pages);
    formatted := Banner(notice, dateLine);
    ghost var banner := formatted;
    assert banner + Sections(pages, order[..0], decrypt) == banner;
    for k := 0 to |order|
      invariant formatted == banner + Sections(pages, order[..k], decrypt)
    {
      var category := order[k];
      var categoryPages := pagesByCategory[category];
      var text := FormatPages(categoryPages, decrypt);
      ghost var done := Sections(pages, order[..k], decrypt);
      assert Sections(pages, order[..k + 1], decrypt) == done + (Heading(category) + text) by {
        assert order[..k + 1][..k] == order[..k];
      }
      AppendAssoc(banner, done, Heading(category) + text);
      formatted := formatted + (Heading(category) + text);
    }
    assert order[..|order|] == order;
    formatted := formatted + Footer;
  }
}
