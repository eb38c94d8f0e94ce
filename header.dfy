/**
 * The user label and menu logic of components/Header.tsx: the label falls back from
 * the display name to the e-mail address (on the desktop bar, to its part before the
 * first `@`), and `closeMenu` toggles the mobile menu only when it is open.
 */
module Header {
  import opened Wrappers
  import opened AuthContext

  /**
   * `email.split('@')[0]`: the text before the first `@`, or all of it when there is none.
   */
  function LocalPart(email: string): (r: string)
    ensures r <= email
    ensures '@' !in r
    ensures |r| < |email| ==> email[|r|] == '@'
    decreases |email|
  {
    if email == [] || email[0] == '@' then "" else [email[0]] + LocalPart(email[1..])
  }

  /** An unset value renders as nothing, which the model writes as the empty string. */
  function OrEmpty(s: Option<string>): string
  {
    if s.Some? then s.value else ""
  }

  /**
   * The desktop bar's label, `displayName || email?.split('@')[0]` at components/Header.tsx:61:
   * the display name when it is set, otherwise the part of the title before its first `@`.
   */
  function DesktopLabel(u: User): (r: string)
    ensures Truthy(u.displayName) ==> r == u.displayName.value
    ensures !Truthy(u.displayName) ==>
              r <= Title(u) && '@' !in r && (|r| < |Title(u)| ==> Title(u)[|r|] == '@')
  {
    if Truthy(u.displayName) then u.displayName.value
    else if u.email.Some? then LocalPart(u.email.value)
    else ""
  }

  /**
   * The mobile menu's label, `displayName || email` at components/Header.tsx:123:
   * the display name when it is set, otherwise the full title.
   */
  function MobileLabel(u: User): (r: string)
    ensures Truthy(u.displayName) ==> r == u.displayName.value
    ensures !Truthy(u.displayName) ==> r == Title(u)
  {
    if Truthy(u.displayName) then u.displayName.value else OrEmpty(u.email)
  }

  /** The `title` attribute `email || ''` of both labels (components/Header.tsx:59 and :123). */
  function Title(u: User): (r: string)
    ensures u.email.Some? ==> r == u.email.value
    ensures u.email.None? ==> r == ""
  {
    OrEmpty(u.email)
  }

  /** The local part of `name@domain` is `name` when `name` has no `@`. */
  lemma {:induction false} LocalPartOfAddress(name: string, domain: string)
    requires '@' !in name
    ensures LocalPart(name + "@" + domain) == name
    decreases |name|
  {
    var e := name + "@" + domain;
    if name != [] {
      assert e[0] == name[0] && e[1..] == name[1..] + "@" + domain;
      assert name[0] in name;
      LocalPartOfAddress(name[1..], domain);
    }
  }

  /** An address without `@` is its own local part. */
  lemma LocalPartWithoutAt(email: string)
    requires '@' !in email
    ensures LocalPart(email) == email
  {
  }

  /** The desktop label: the display name if set, else the e-mail's local part, else nothing. */
  lemma DesktopLabelCases(u: User)
    ensures Truthy(u.displayName) ==> DesktopLabel(u) == u.displayName.value
    ensures !Truthy(u.displayName) && u.email.Some? && '@' !in u.email.value ==>
              DesktopLabel(u) == u.email.value
    ensures !Truthy(u.displayName) && u.email.Some? ==>
              DesktopLabel(u) <= u.email.value && '@' !in DesktopLabel(u)
    ensures !Truthy(u.displayName) && u.email.Some? ==> DesktopLabel(u) == LocalPart(u.email.value)
    ensures !Truthy(u.displayName) && u.email.None? ==> DesktopLabel(u) == ""
  {
  }

  /**
   * With a display name, both labels show it. Without one, the mobile label shows the
   * full address of the title and the desktop label a prefix of it.
   */
  lemma LabelsAgree(u: User)
    ensures Truthy(u.displayName) ==> DesktopLabel(u) == MobileLabel(u) == u.displayName.value
    ensures !Truthy(u.displayName) ==> MobileLabel(u) == Title(u) && DesktopLabel(u) <= Title(u)
    ensures Title(u) == (if u.email.Some? then u.email.value else "")
  {
  }

  /** The callbacks the header invokes on its host. */
  datatype HostCall = ToggleMobileMenu | Logout | OpenLoginModal | OpenSignUpModal

  /** The three buttons at the foot of the mobile menu (components/Header.tsx:125, :131 and :132). */
  datatype MobileButton = LogOutButton | LogInButton | SignUpButton

  /** The host callback each button invokes before it closes the menu. */
  function ButtonCallback(b: MobileButton): (c: HostCall)
    ensures c != ToggleMobileMenu
    ensures b == LogOutButton <==> c == Logout
    ensures b == LogInButton <==> c == OpenLoginModal
    ensures b == SignUpButton <==> c == OpenSignUpModal
  {
    match b
    case LogOutButton => Logout
    case LogInButton => OpenLoginModal
    case SignUpButton => OpenSignUpModal
  }

  /**
   * The header's host: the `isMobileMenuOpen` prop, flipped by the `toggleMobileMenu`
   * callback, and the record of the callbacks the header has invoked.
   */
  class HeaderHost {
    var menuOpen: bool
    var calls: seq<HostCall>

    constructor (menuOpen: bool)
      ensures this.menuOpen == menuOpen && calls == []
    {
      this.menuOpen := menuOpen;
      calls := [];
    }

    /** `toggleMobileMenu()` */
    method ToggleMenu()
      modifies this
      ensures menuOpen == !old(menuOpen)
      ensures calls == old(calls) + [ToggleMobileMenu]
    {
      menuOpen := !menuOpen;
      calls := calls + [ToggleMobileMenu];
    }

    /** `closeMenu()`: afterwards the menu is closed; a closed menu is left alone. */
    method CloseMenu()
      modifies this
      ensures !menuOpen
      ensures calls == old(calls) + (if old(menuOpen) then [ToggleMobileMenu] else [])
    {
      if menuOpen {
        ToggleMenu();
      }
    }

    /** A mobile-menu button: its callback, then `closeMenu()`. */
    method MobileAction(button: MobileButton)
      modifies this
      ensures !menuOpen
      ensures calls == old(calls) + [ButtonCallback(button)] + (if old(menuOpen) then [ToggleMobileMenu] else [])
    {
      calls := calls + [ButtonCallback(button)];
      CloseMenu();
    }
  }
}
