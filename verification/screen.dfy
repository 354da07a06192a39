/** The screen-size breakpoints the console reacts to, and the width of the
    right-hand global drawer, which both drawer providers compute the same way. */
module Screen {

  /** Material-UI breakpoints, smallest first. */
  datatype Breakpoint = XS | SM | MD | LG | XL

  /** A CSS width: the number 0 or a length. */
  datatype Width = Zero | Css(length: string)

  const XL_WIDTH: string := "45vw"
  const LG_WIDTH: string := "85%"
  const MD_WIDTH: string := "85%"
  const SM_WIDTH: string := "100%"

  /** `isXL ? XLWidth : isLG ? LGWidth : isMD ? MDWidth : SMWidth`. */
  function DrawerWidth(b: Breakpoint): (r: string)
    ensures r == XL_WIDTH <==> b == XL
    ensures r == SM_WIDTH <==> b == XS || b == SM
  {
    assert XL_WIDTH[0] != SM_WIDTH[0] && |LG_WIDTH| != |SM_WIDTH|;
    match b
    case XL => XL_WIDTH
    case LG => LG_WIDTH
    case MD => MD_WIDTH
    case _ => SM_WIDTH
  }

  /** `globalDrawer ? drawerWidth : 0`: the drawer takes room only when it holds something. */
  function StyleWidth(b: Breakpoint, hasDrawer: bool): (r: Width)
    ensures r.Zero? <==> !hasDrawer
    ensures r.Css? ==> r.length == DrawerWidth(b)
  {
    if hasDrawer then Css(DrawerWidth(b)) else Zero
  }

  /** Medium and large screens give the drawer the same share of the page. */
  lemma MediumIsLarge()
    ensures DrawerWidth(MD) == DrawerWidth(LG) == "85%"
  {
  }
}
