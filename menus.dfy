/**
 * menu.py: the pause menu. A menu is a set of named pages, each holding a group of buttons;
 * one page is current. Action buttons call into the music mixer, switch buttons change the
 * current page, and the sound progress bar only displays the volume.
 */
module Menus {

  /** SCREEN_SIZE, the window the game draws into. */
  const ScreenWidth: int := 1300
  const ScreenHeight: int := 900

  /** MenuButton.BUTTON_SIZE and ProgressBar.OUTER_SIZE. */
  const ButtonWidth: int := 200
  const ButtonHeight: int := 80
  const BarOuterWidth: int := 200
  const BarOuterHeight: int := 30

  /** The left edge shared by every menu button: SCREEN_SIZE[0] / 2 - BUTTON_SIZE[0] / 2. */
  const ButtonLeft: int := ScreenWidth / 2 - ButtonWidth / 2

  /** A pygame Rect: left, top, width and height in pixels. */
  datatype Rect = Rect(x: int, y: int, w: nat, h: nat)

  /** Rect.collidepoint: the rectangle is half-open, so a 0x0 rectangle contains no point. */
  predicate Contains(r: Rect, px: int, py: int)
  {
    r.x <= px < r.x + r.w && r.y <= py < r.y + r.h
  }

  /** The callables an ActionButton can hold: the two mixer volume steps and ActionButton.no_action. */
  datatype Action = AddMusicVolume | SubMusicVolume | NoAction

  /** The calls an action makes into the music mixer: no_action makes none. */
  function MixerCalls(a: Action): (calls: seq<Action>)
    ensures a == NoAction <==> calls == []
    ensures calls != [] ==> calls == [a]
  {
    if a == NoAction then [] else [a]
  }

  /** The music mixer, reduced to the ordered record of the volume calls made into it. */
  class Mixer {
    var calls: seq<Action>

    constructor ()
      ensures calls == []
    {
      calls := [];
    }

    /** Invoke an action once: a volume step is recorded, no_action changes nothing. */
    method Run(a: Action)
      modifies this
      ensures calls == old(calls) + MixerCalls(a)
      ensures a == NoAction ==> calls == old(calls)
    {
      if a != NoAction {
        calls := calls + [a];
      }
    }
  }

  /** What kind of sprite sits in a page's button group. */
  datatype ButtonKind =
    | Act(action: Action)                       // ActionButton
    | Switch(target: MenuPage)                  // SwitchButton
    | Bar(outerWidth: int, outerHeight: int)    // SoundProgressBar (no on_click)

  class MenuButton {
    const kind: ButtonKind
    const rect: Rect
    const text: string
    var focus: bool

    /** ActionButton(pos, action, size, text). Focus starts cleared; the source leaves it unset until a mouse event first assigns it. */
    constructor ActionButton(pos: (int, int), action: Action, size: (nat, nat), text: string)
      ensures kind == Act(action) && rect == Rect(pos.0, pos.1, size.0, size.1)
      ensures this.text == text && !focus
    {
      kind := Act(action);
      rect := Rect(pos.0, pos.1, size.0, size.1);
      this.text := text;
      focus := false;
    }

    /** SwitchButton(target_page, pos) with the default size and the text "Link". */
    constructor SwitchButton(target: MenuPage, pos: (int, int))
      ensures kind == Switch(target) && rect == Rect(pos.0, pos.1, ButtonWidth, ButtonHeight)
      ensures text == "Link" && !focus
    {
      kind := Switch(target);
      rect := Rect(pos.0, pos.1, ButtonWidth, ButtonHeight);
      text := "Link";
      focus := false;
    }

    /** SoundProgressBar(pos): its image is 0x0, so its rectangle is empty. */
    constructor SoundProgressBar(pos: (int, int))
      ensures kind == Bar(BarOuterWidth, BarOuterHeight) && rect == Rect(pos.0, pos.1, 0, 0)
      ensures text == "" && !focus
    {
      kind := Bar(BarOuterWidth, BarOuterHeight);
      rect := Rect(pos.0, pos.1, 0, 0);
      text := "";
      focus := false;
    }

    /** ActionButton.on_click and SwitchButton.on_click. */
    method OnClick(menu: Menu)
      requires !kind.Bar?
      modifies menu, menu.mixer
      ensures menu.View() == OnClickView(old(menu.View()), kind)
    {
      match kind
      case Act(a) =>
        menu.mixer.Run(a);
      case Switch(target) =>
        if menu.currentPage.name != target.name {
          menu.currentPage := target;
        }
    }
  }

  class MenuPage {
    const name: string
    var buttonGroup: seq<MenuButton>

    constructor (buttonGroup: seq<MenuButton>, name: string)
      ensures this.buttonGroup == buttonGroup && this.name == name
    {
      this.buttonGroup := buttonGroup;
      this.name := name;
    }

    /** pygame.sprite.Group.add: a sprite already in the group is not added twice. */
    method Add(b: MenuButton)
      modifies this
      ensures buttonGroup == if b in old(buttonGroup) then old(buttonGroup) else old(buttonGroup) + [b]
    {
      if b !in buttonGroup {
        buttonGroup := buttonGroup + [b];
      }
    }
  }

  /** SwitchButton.on_click: move to the target unless the current page already has its name. */
  function SwitchOnClick(current: MenuPage, target: MenuPage): (page: MenuPage)
    ensures current.name != target.name ==> page == target
    ensures current.name == target.name ==> page == current
  {
    if current.name != target.name then target else current
  }

  lemma SwitchOnClickIdempotent(current: MenuPage, target: MenuPage)
    ensures SwitchOnClick(SwitchOnClick(current, target), target) == SwitchOnClick(current, target)
    ensures SwitchOnClick(current, target).name == target.name
  {
  }

  /** Two pages with different names: switching there and back returns to the start page. */
  lemma SwitchRoundTrip(start: MenuPage, other: MenuPage)
    requires start.name != other.name
    ensures SwitchOnClick(SwitchOnClick(start, other), start) == start
  {
  }

  /**
   * The part of a menu that handling mouse events reads and changes: the current page,
   * each page's button group, each button's focus flag and the calls made into the mixer.
   */
  datatype MenuView = MenuView(
    page: MenuPage,
    groups: map<MenuPage, seq<MenuButton>>,
    focus: map<MenuButton, bool>,
    calls: seq<Action>)

  /** What clicking a button of the given kind does to the menu. */
  function OnClickView(v: MenuView, kind: ButtonKind): (w: MenuView)
    ensures w.groups == v.groups && w.focus == v.focus
    ensures kind.Act? ==> w.page == v.page && w.calls == v.calls + MixerCalls(kind.action)
    ensures kind.Switch? ==> w.calls == v.calls && w.page == SwitchOnClick(v.page, kind.target)
    ensures kind.Bar? ==> w == v
  {
    match kind
    case Act(a) => v.(calls := v.calls + MixerCalls(a))
    case Switch(t) => v.(page := SwitchOnClick(v.page, t))
    case Bar(_, _) => v
  }

  /** No sprite appears twice in a group (a pygame Group is a set). */
  predicate Distinct<T(==)>(s: seq<T>)
  {
    forall i, j :: 0 <= i < j < |s| ==> s[i] != s[j]
  }

  class Menu {
    const pages: map<string, MenuPage>
    var currentPage: MenuPage
    const mixer: Mixer
    /** Every sprite of every page's group, fixed once the menu is built. */
    const buttons: set<MenuButton>

    /** Menu(pages): the menu opens on the page stored under 'page1'. */
    constructor (pages: map<string, MenuPage>, mixer: Mixer)
      requires "page1" in pages
      ensures this.pages == pages && this.mixer == mixer && currentPage == pages["page1"]
      ensures buttons == set p, b | p in pages.Values && b in p.buttonGroup :: b
    {
      this.pages := pages;
      this.mixer := mixer;
      currentPage := pages["page1"];
      buttons := set p, b | p in pages.Values && b in p.buttonGroup :: b;
    }

    ghost predicate Valid()
      reads this, pages.Values
    {
      && currentPage in pages.Values
      && (forall p, b :: p in pages.Values && b in p.buttonGroup ==> b in buttons)
      && (forall p :: p in pages.Values ==> Distinct(p.buttonGroup))
      && (forall b :: b in buttons && b.kind.Switch? ==> b.kind.target in pages.Values)
      && (forall b :: b in buttons && b.kind.Bar? ==> b.rect.w == 0 && b.rect.h == 0)
    }

    function Groups(): (g: map<MenuPage, seq<MenuButton>>)
      reads this, pages.Values
      ensures g.Keys == pages.Values
    {
      map p | p in pages.Values :: p.buttonGroup
    }

    function Focus(): (f: map<MenuButton, bool>)
      reads this, buttons
      ensures f.Keys == buttons
    {
      map b | b in buttons :: b.focus
    }

    function View(): MenuView
      reads this, pages.Values, buttons, mixer
    {
      MenuView(currentPage, Groups(), Focus(), mixer.calls)
    }
  }

  /** ProgressBar.calculate_inner_bar_width: int(percent * outer_width / 100), truncating toward zero. */
  function CalculateInnerBarWidth(percent: int, outerWidth: int): (r: int)
    ensures var p := percent * outerWidth;
      && (p >= 0 ==> 0 <= r && r * 100 <= p < r * 100 + 100)
      && (p < 0 ==> r <= 0 && p <= r * 100 < p + 100)
  {
    var p := percent * outerWidth;
    if p >= 0 then p / 100 else -((-p) / 100)
  }

  lemma InnerBarWidthEnds(outerWidth: int)
    ensures CalculateInnerBarWidth(0, outerWidth) == 0
    ensures CalculateInnerBarWidth(100, outerWidth) == outerWidth
  {
  }

  lemma InnerBarWidthMonotone(p1: int, p2: int, outerWidth: nat)
    requires p1 <= p2
    ensures CalculateInnerBarWidth(p1, outerWidth) <= CalculateInnerBarWidth(p2, outerWidth)
  {
    assert p1 * outerWidth <= p2 * outerWidth by {
      assert (p2 - p1) * outerWidth >= 0;
    }
  }

  lemma InnerBarWidthBounded(percent: int, outerWidth: nat)
    requires 0 <= percent <= 100
    ensures 0 <= CalculateInnerBarWidth(percent, outerWidth) <= outerWidth
  {
    InnerBarWidthMonotone(percent, 100, outerWidth);
    InnerBarWidthMonotone(0, percent, outerWidth);
    InnerBarWidthEnds(outerWidth);
  }

  /** create_menu_pages: page1 holds '+', the volume bar and '-'; page2 holds 'Foobar2'. */
  method CreateMenuPages() returns (pages: map<string, MenuPage>)
    ensures pages.Keys == {"page1", "page2"}
    ensures fresh(pages["page1"]) && fresh(pages["page2"]) && pages["page1"] != pages["page2"]
    ensures pages["page1"].name == "Seite1" && pages["page2"].name == "Seite2"
    ensures var g := pages["page1"].buttonGroup;
      && |g| == 3 && fresh(g[0]) && fresh(g[1]) && fresh(g[2]) && Distinct(g)
      && g[0].kind == Act(AddMusicVolume) && g[0].text == "+" && g[0].rect == Rect(ButtonLeft, 200, ButtonWidth, ButtonHeight)
      && g[1].kind == Bar(BarOuterWidth, BarOuterHeight) && g[1].rect == Rect(ButtonLeft, 300, 0, 0)
      && g[2].kind == Act(SubMusicVolume) && g[2].text == "-" && g[2].rect == Rect(ButtonLeft, 400, ButtonWidth, ButtonHeight)
    ensures var g := pages["page2"].buttonGroup;
      && |g| == 1 && fresh(g[0])
      && g[0].kind == Act(NoAction) && g[0].text == "Foobar2" && g[0].rect == Rect(ButtonLeft, 200, ButtonWidth, ButtonHeight)
    ensures forall p, b :: p in pages.Values && b in p.buttonGroup ==> !b.focus
  {
    var plus := new MenuButton.ActionButton((ButtonLeft, 200), AddMusicVolume, (ButtonWidth, ButtonHeight), "+");
    var bar := new MenuButton.SoundProgressBar((ButtonLeft, 300));
    var minus := new MenuButton.ActionButton((ButtonLeft, 400), SubMusicVolume, (ButtonWidth, ButtonHeight), "-");
    var page1 := new MenuPage([plus, bar, minus], "Seite1");
    var foobar := new MenuButton.ActionButton((ButtonLeft, 200), NoAction, (ButtonWidth, ButtonHeight), "Foobar2");
    var page2 := new MenuPage([foobar], "Seite2");
    pages := map["page1" := page1, "page2" := page2];
  }

  /** add_switch_pages: page1 gets a switch to page2 and page2 a switch back to page1. */
  method AddSwitchPages(pages: map<string, MenuPage>) returns (toPage2: MenuButton, toPage1: MenuButton)
    requires "page1" in pages && "page2" in pages && pages["page1"] != pages["page2"]
    modifies pages["page1"], pages["page2"]
    ensures fresh(toPage2) && fresh(toPage1) && toPage1 != toPage2
    ensures toPage2.kind == Switch(pages["page2"]) && toPage2.rect == Rect(ButtonLeft, 600, ButtonWidth, ButtonHeight)
    ensures toPage1.kind == Switch(pages["page1"]) && toPage1.rect == Rect(ButtonLeft, 400, ButtonWidth, ButtonHeight)
    ensures !toPage1.focus && !toPage2.focus
    ensures pages["page1"].buttonGroup == old(pages["page1"].buttonGroup) + [toPage2]
    ensures pages["page2"].buttonGroup == old(pages["page2"].buttonGroup) + [toPage1]
  {
    toPage2 := new MenuButton.SwitchButton(pages["page2"], (ButtonLeft, 600));
    toPage1 := new MenuButton.SwitchButton(pages["page1"], (ButtonLeft, 400));
    pages["page1"].Add(toPage2);
    pages["page2"].Add(toPage1);
  }

  /** create_menu: build the two pages, wire the switches and open on page1. */
  method CreateMenu(mixer: Mixer) returns (menu: Menu)
    ensures fresh(menu) && menu.mixer == mixer && menu.Valid()
    ensures menu.pages.Keys == {"page1", "page2"} && menu.currentPage == menu.pages["page1"]
    ensures var p1, p2 := menu.pages["page1"], menu.pages["page2"];
      && p1 != p2 && p1.name == "Seite1" && p2.name == "Seite2"
      && |p1.buttonGroup| == 4 && |p2.buttonGroup| == 2
      && p1.buttonGroup[0].kind == Act(AddMusicVolume) && p1.buttonGroup[0].text == "+"
      && p1.buttonGroup[1].kind == Bar(BarOuterWidth, BarOuterHeight)
      && p1.buttonGroup[2].kind == Act(SubMusicVolume) && p1.buttonGroup[2].text == "-"
      && p1.buttonGroup[3].kind == Switch(p2)
      && p2.buttonGroup[0].kind == Act(NoAction) && p2.buttonGroup[0].text == "Foobar2"
      && p2.buttonGroup[1].kind == Switch(p1)
    ensures forall b :: b in menu.buttons ==> !b.focus
  {
    var pages := CreateMenuPages();
    var toPage2, toPage1 := AddSwitchPages(pages);
    menu := new Menu(pages, mixer);
    assert menu.pages.Values == {pages["page1"], pages["page2"]};
  }
}
