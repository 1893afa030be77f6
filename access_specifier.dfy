/**
 * `AccessSpecifier`: a visibility with its keyword and the `static` and
 * `final` flags, rendered as the modifier text in front of a declaration.
 */
module Access {

  /** The three visibilities; the package-private one has no keyword. */
  datatype Visibility = PUBLIC | PACKAGE | PRIVATE

  /** The keyword each visibility is written with. */
  function Prefix(v: Visibility): string
  {
    match v
    case PUBLIC => "public"
    case PACKAGE => ""
    case PRIVATE => "private"
  }

  datatype AccessSpecifier = AccessSpecifier(visibility: Visibility, isStatic: bool, isFinal: bool)

  /** What the builder gives when nothing is set: private, not static, not final. */
  const Default := AccessSpecifier(PRIVATE, false, false)

  /**
   * `toString`: nothing at all for package visibility, whatever the flags;
   * otherwise the keyword and a space, then `static ` and `final ` as set.
   */
  function ToString(a: AccessSpecifier): (r: string)
    ensures r == "" <==> a.visibility == PACKAGE
    ensures r != "" ==> r[|r| - 1] == ' '
    ensures a.visibility != PACKAGE ==>
      |r| > |Prefix(a.visibility)| && r[..|Prefix(a.visibility)| + 1] == Prefix(a.visibility) + " "
  {
    if a.visibility == PACKAGE then ""
    else Prefix(a.visibility) + " " + Flags(a.isStatic, a.isFinal)
  }

  /** The modifier words after the keyword: `static ` and `final `, as set. */
  function Flags(isStatic: bool, isFinal: bool): string
  {
    (if isStatic then "static " else "") + (if isFinal then "final " else "")
  }

  /** The flag text tells which flags are set. */
  lemma FlagsInjective(s1: bool, f1: bool, s2: bool, f2: bool)
    requires Flags(s1, f1) == Flags(s2, f2)
    ensures s1 == s2 && f1 == f2
  {
    var t := Flags(s1, f1);
    assert s1 <==> |t| > 0 && t[0] == 's';
    assert s2 <==> |t| > 0 && t[0] == 's';
    var rest := if s1 then t[7..] else t;
    assert rest == (if f1 then "final " else "");
    assert rest == (if f2 then "final " else "");
  }

  /** The defaults render as `private `. */
  lemma DefaultRendering()
    ensures ToString(Default) == "private "
  {
  }

  /** Only the keyword and the flags matter: two visible specifiers render alike only when equal. */
  lemma ToStringInjective(a: AccessSpecifier, b: AccessSpecifier)
    requires a.visibility != PACKAGE && b.visibility != PACKAGE
    requires ToString(a) == ToString(b)
    ensures a == b
  {
    var r := ToString(a);
    assert a.visibility == b.visibility by {
      assert r[1] == (if a.visibility == PUBLIC then 'u' else 'r');
      assert r[1] == (if b.visibility == PUBLIC then 'u' else 'r');
    }
    var n := |Prefix(a.visibility)| + 1;
    assert r[n..] == Flags(a.isStatic, a.isFinal);
    assert r[n..] == Flags(b.isStatic, b.isFinal);
    FlagsInjective(a.isStatic, a.isFinal, b.isStatic, b.isFinal);
  }
}
