/** The dashboard sidebar (components/Sidebar.tsx): its navigation items,
    which one is highlighted, and the heading with its avatar letter. */
module SidebarNav {
  import opened Common
  import opened Views

  const NavItems: seq<NavItem> := [
    NavItem("Live Feed", Dashboard),
    NavItem("Upload Files", UploadFiles),
    NavItem("Audit RO", RoAudit),
    NavItem("Ask AI", AskAi),
    NavItem("Shop Settings", ShopSettings),
    NavItem("Support", Support)
  ]

  function Targets(items: seq<NavItem>): (vs: seq<ViewState>)
    ensures |vs| == |items|
    ensures forall i :: 0 <= i < |items| ==> vs[i] == items[i].view
  {
    seq(|items|, i requires 0 <= i < |items| => items[i].view)
  }

  predicate Distinct(vs: seq<ViewState>) {
    forall i, j :: 0 <= i < j < |vs| ==> vs[i] != vs[j]
  }

  /** Every sidebar target needs a session, and the feedback page has no
      sidebar entry. */
  lemma NavTargetsAreProtected()
    ensures forall i :: 0 <= i < |NavItems| ==> IsProtected(NavItems[i].view)
    ensures Feedback !in Targets(NavItems)
    ensures Distinct(Targets(NavItems))
  {
  }

  predicate IsItemActive(current: ViewState, item: NavItem) {
    current == item.view
  }

  /** How many of `items` are highlighted for `current`. */
  function ActiveCount(items: seq<NavItem>, current: ViewState): nat {
    if items == [] then 0
    else (if IsItemActive(current, items[0]) then 1 else 0) + ActiveCount(items[1..], current)
  }

  /** With distinct targets exactly one item is highlighted when the current
      view is a target, and none otherwise. */
  lemma {:induction false} ActiveCountOfDistinct(items: seq<NavItem>, current: ViewState)
    requires Distinct(Targets(items))
    ensures ActiveCount(items, current) == (if current in Targets(items) then 1 else 0)
    decreases |items|
  {
    if items != [] {
      var rest := items[1..];
      assert Targets(items) == [items[0].view] + Targets(rest);
      assert Distinct(Targets(rest)) by {
        forall i, j | 0 <= i < j < |Targets(rest)|
          ensures Targets(rest)[i] != Targets(rest)[j]
        {
          assert Targets(items)[i + 1] == Targets(rest)[i];
          assert Targets(items)[j + 1] == Targets(rest)[j];
        }
      }
      ActiveCountOfDistinct(rest, current);
      if current == items[0].view {
        forall k | 0 <= k < |Targets(rest)|
          ensures Targets(rest)[k] != current
        {
          assert Targets(items)[k + 1] == Targets(rest)[k];
        }
      }
    }
  }

  /** At most one sidebar item is ever highlighted. */
  lemma AtMostOneActive(current: ViewState)
    ensures ActiveCount(NavItems, current) <= 1
    ensures ActiveCount(NavItems, current) == 1 <==> current in Targets(NavItems)
  {
    NavTargetsAreProtected();
    ActiveCountOfDistinct(NavItems, current);
  }

  /** Clicking an item shows its view, which needs a session. */
  function Click(item: NavItem): (next: ViewState)
    requires item in NavItems
    ensures IsItemActive(next, item)
    ensures IsProtected(next)
  {
    NavTargetsAreProtected();
    item.view
  }

  /** After a click the clicked item is the one highlighted item. */
  lemma ClickHighlightsOnlyItem(item: NavItem)
    requires item in NavItems
    ensures ActiveCount(NavItems, Click(item)) == 1
  {
    var k :| 0 <= k < |NavItems| && NavItems[k] == item;
    assert Targets(NavItems)[k] == item.view;
    AtMostOneActive(item.view);
  }

  /** The heading props' defaults. */
  const DefaultHeadingName := "My Shop"
  const DefaultHeadingSub := "Enterprise Plan"

  /** A defaulted prop: the default applies only when the prop is left out,
      so a passed empty string is kept. */
  function PropOrDefault(given: Option<string>, default: string): (v: string)
    ensures given.Some? ==> v == given.value
    ensures given.None? ==> v == default
  {
    if given.Some? then given.value else default
  }

  /** The heading block: the name and sub-heading props with their defaults,
      and the avatar letter drawn from the name. */
  datatype Heading = Heading(name: string, sub: string, avatar: string)

  function SidebarHeading(name: Option<string>, sub: Option<string>): (h: Heading)
    ensures name.None? ==> h.name == "My Shop" && h.avatar == "M"
    ensures sub.None? ==> h.sub == "Enterprise Plan"
    ensures name.Some? ==> h.name == name.value
    ensures sub.Some? ==> h.sub == sub.value
    ensures name == Some("") ==> h.avatar == "S"
    ensures name.Some? && name.value != [] ==> h.avatar == [name.value[0]]
  {
    var n := PropOrDefault(name, DefaultHeadingName);
    Heading(n, PropOrDefault(sub, DefaultHeadingSub), AvatarLetter(n))
  }

  /** `headingName?.charAt(0) || 'S'`: the first character, or "S" for an
      empty heading. */
  function AvatarLetter(headingName: string): (letter: string)
    ensures |letter| == 1
    ensures headingName != [] ==> letter[0] == headingName[0]
    ensures headingName == [] ==> letter == "S"
  {
    OrElse(headingName[..if headingName == [] then 0 else 1], "S")
  }
}
