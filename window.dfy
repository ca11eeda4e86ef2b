/**
 * Window placement arithmetic (src-tauri/src/window.rs). Sizes and positions
 * are physical pixels; the window-manager calls that read the monitor and
 * move the window are not part of the model, only the coordinates computed.
 */
module WindowPlacement {

  /** The distance from the top of the screen used at set-up and after a resize. */
  const TOP_OFFSET: int := 54

  /** Rust's `/` on `i32`: the quotient rounded toward zero. */
  function TruncDiv2(a: int): (q: int)
    ensures a >= 0 ==> 0 <= q && 2 * q <= a < 2 * q + 2
    ensures a < 0 ==> q <= 0 && 2 * q - 2 < a <= 2 * q
  {
    if a >= 0 then a / 2 else -((-a) / 2)
  }

  function Max(a: int, b: int): (m: int)
    ensures m >= a && m >= b && (m == a || m == b)
  {
    if a >= b then a else b
  }

  datatype Position = Position(x: int, y: int)

  /** `position_window_top_center`: horizontally centred, `yOffset` from the top, clamped at 0. */
  function TopCenter(monitorWidth: nat, windowWidth: nat, yOffset: int): (p: Position)
    ensures p.x >= 0 && p.y >= 0
    ensures p.y == Max(yOffset, 0)
    ensures windowWidth <= monitorWidth ==>
      && monitorWidth - windowWidth - 2 * p.x in {0, 1}
      && p.x + windowWidth <= monitorWidth
    ensures windowWidth > monitorWidth ==> p.x == 0
  {
    Position(Max(TruncDiv2(monitorWidth - windowWidth), 0), Max(yOffset, 0))
  }

  /**
   * `position_window_top_center_with_retry`: as `TopCenter`, shifted by the
   * position of the monitor.
   */
  function TopCenterOnMonitor(monitorX: int, monitorY: int, monitorWidth: nat, windowWidth: nat, yOffset: int)
    : (p: Position)
    ensures p.x >= monitorX && p.y >= monitorY
    ensures p == Position(monitorX + TopCenter(monitorWidth, windowWidth, yOffset).x,
                          monitorY + TopCenter(monitorWidth, windowWidth, yOffset).y)
    ensures windowWidth <= monitorWidth ==> p.x + windowWidth <= monitorX + monitorWidth
  {
    var c := TruncDiv2(monitorWidth - windowWidth);
    Position(monitorX + Max(c, 0), monitorY + Max(yOffset, 0))
  }

  /**
   * `center_window_completely`: centred on both axes and never before the
   * monitor's origin on either.
   */
  function CenterCompletely(monitorX: int, monitorY: int, monitorWidth: nat, monitorHeight: nat,
                            windowWidth: nat, windowHeight: nat): (p: Position)
    ensures p.x >= monitorX && p.y >= monitorY
    ensures windowWidth <= monitorWidth ==>
      && monitorX + monitorWidth - (p.x + windowWidth) - (p.x - monitorX) in {0, 1}
      && p.x + windowWidth <= monitorX + monitorWidth
    ensures windowHeight <= monitorHeight ==>
      && monitorY + monitorHeight - (p.y + windowHeight) - (p.y - monitorY) in {0, 1}
      && p.y + windowHeight <= monitorY + monitorHeight
    ensures windowWidth > monitorWidth ==> p.x == monitorX
    ensures windowHeight > monitorHeight ==> p.y == monitorY
  {
    var cx := monitorX + TruncDiv2(monitorWidth - windowWidth);
    var cy := monitorY + TruncDiv2(monitorHeight - windowHeight);
    Position(Max(cx, monitorX), Max(cy, monitorY))
  }

  /**
   * `setup_main_window` and `reposition_after_resize` on Windows and macOS:
   * the top-centre placement at `TOP_OFFSET`.
   */
  function SetupPosition(monitorWidth: nat, windowWidth: nat): (p: Position)
    ensures p.y == 54 && p.x >= 0
    ensures windowWidth <= monitorWidth ==> p.x + windowWidth <= monitorWidth
  {
    TopCenter(monitorWidth, windowWidth, TOP_OFFSET)
  }
}
