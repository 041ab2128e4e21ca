/**
 * The round description received before a Capture-the-Flag round: teams,
 * starting corners, flag colours and the corner points of every region of
 * the board.
 */
module GameParams {
  import opened Coordinates

  /** The kind of ground a grid point lies on. */
  datatype Zone = GREEN | RED | BRIDGE | RIVER

  datatype GameParameters = GameParameters(
    RedTeam: int, GreenTeam: int, RedCorner: int, GreenCorner: int, OG: int, OR: int,
    Red_LL: Coordinate, Red_UR: Coordinate, Green_LL: Coordinate, Green_UR: Coordinate,
    ZC_R: Coordinate, ZO_R: Coordinate, ZC_G: Coordinate, ZO_G: Coordinate,
    SH_LL: Coordinate, SH_UR: Coordinate, SV_LL: Coordinate, SV_UR: Coordinate,
    SR_LL: Coordinate, SR_UR: Coordinate, SG_LL: Coordinate, SG_UR: Coordinate)

  /**
   * The GameParameters constructor as written: every field takes its own
   * argument except the red tower centre, which is given the green tower's
   * centre, so the `zcR` argument is ignored.
   */
  function Construct(redTeam: int, greenTeam: int, redCorner: int, greenCorner: int, og: int, or: int,
                     redLL: Coordinate, redUR: Coordinate, greenLL: Coordinate, greenUR: Coordinate,
                     zcR: Coordinate, zoR: Coordinate, zcG: Coordinate, zoG: Coordinate,
                     shLL: Coordinate, shUR: Coordinate, svLL: Coordinate, svUR: Coordinate,
                     srLL: Coordinate, srUR: Coordinate, sgLL: Coordinate, sgUR: Coordinate): (g: GameParameters)
    ensures g.ZC_R == zcG && g.ZC_G == zcG
    ensures g.RedTeam == redTeam && g.GreenTeam == greenTeam && g.RedCorner == redCorner
    ensures g.GreenCorner == greenCorner && g.OG == og && g.OR == or
    ensures g.Red_LL == redLL && g.Red_UR == redUR && g.Green_LL == greenLL && g.Green_UR == greenUR
    ensures g.ZO_R == zoR && g.ZO_G == zoG
    ensures g.SH_LL == shLL && g.SH_UR == shUR && g.SV_LL == svLL && g.SV_UR == svUR
    ensures g.SR_LL == srLL && g.SR_UR == srUR && g.SG_LL == sgLL && g.SG_UR == sgUR
  {
    GameParameters(redTeam, greenTeam, redCorner, greenCorner, og, or,
      redLL, redUR, greenLL, greenUR, zcG, zoR, zcG, zoG,
      shLL, shUR, svLL, svUR, srLL, srUR, sgLL, sgUR)
  }

  /** The constructor as evidently intended: every field takes its own argument. */
  function ConstructIntended(redTeam: int, greenTeam: int, redCorner: int, greenCorner: int, og: int, or: int,
                             redLL: Coordinate, redUR: Coordinate, greenLL: Coordinate, greenUR: Coordinate,
                             zcR: Coordinate, zoR: Coordinate, zcG: Coordinate, zoG: Coordinate,
                             shLL: Coordinate, shUR: Coordinate, svLL: Coordinate, svUR: Coordinate,
                             srLL: Coordinate, srUR: Coordinate, sgLL: Coordinate, sgUR: Coordinate): (g: GameParameters)
    ensures g.ZC_R == zcR && g.ZC_G == zcG
    ensures g.RedTeam == redTeam && g.GreenTeam == greenTeam && g.RedCorner == redCorner
    ensures g.GreenCorner == greenCorner && g.OG == og && g.OR == or
    ensures g.Red_LL == redLL && g.Red_UR == redUR && g.Green_LL == greenLL && g.Green_UR == greenUR
    ensures g.ZO_R == zoR && g.ZO_G == zoG
    ensures g.SH_LL == shLL && g.SH_UR == shUR && g.SV_LL == svLL && g.SV_UR == svUR
    ensures g.SR_LL == srLL && g.SR_UR == srUR && g.SG_LL == sgLL && g.SG_UR == sgUR
  {
    GameParameters(redTeam, greenTeam, redCorner, greenCorner, og, or,
      redLL, redUR, greenLL, greenUR, zcR, zoR, zcG, zoG,
      shLL, shUR, svLL, svUR, srLL, srUR, sgLL, sgUR)
  }

  /**
   * Counterexample exhibit for the tower assignment: with distinct towers
   * the constructor as written loses the red tower, so the record it
   * builds differs from the intended one exactly there. It is an exhibit
   * of the defect, not a property the model relies on.
   */
  lemma RedTowerLost(c: Coordinate, zcR: Coordinate, zcG: Coordinate)
    requires zcR != zcG
    ensures Construct(1, 2, 1, 3, 1, 2, c, c, c, c, zcR, c, zcG, c, c, c, c, c, c, c, c, c)
         != ConstructIntended(1, 2, 1, 3, 1, 2, c, c, c, c, zcR, c, zcG, c, c, c, c, c, c, c, c, c)
    ensures Construct(1, 2, 1, 3, 1, 2, c, c, c, c, zcR, c, zcG, c, c, c, c, c, c, c, c, c)
         == Construct(1, 2, 1, 3, 1, 2, c, c, c, c, zcG, c, zcG, c, c, c, c, c, c, c, c, c)
  {
  }

  /** Both constructors agree whenever the two towers are the same point. */
  lemma ConstructorsAgreeOnOneTower(redTeam: int, greenTeam: int, redCorner: int, greenCorner: int, og: int, or: int,
                                    redLL: Coordinate, redUR: Coordinate, greenLL: Coordinate, greenUR: Coordinate,
                                    zoR: Coordinate, zc: Coordinate, zoG: Coordinate,
                                    shLL: Coordinate, shUR: Coordinate, svLL: Coordinate, svUR: Coordinate,
                                    srLL: Coordinate, srUR: Coordinate, sgLL: Coordinate, sgUR: Coordinate)
    ensures Construct(redTeam, greenTeam, redCorner, greenCorner, og, or, redLL, redUR, greenLL, greenUR,
                      zc, zoR, zc, zoG, shLL, shUR, svLL, svUR, srLL, srUR, sgLL, sgUR)
         == ConstructIntended(redTeam, greenTeam, redCorner, greenCorner, og, or, redLL, redUR, greenLL, greenUR,
                              zc, zoR, zc, zoG, shLL, shUR, svLL, svUR, srLL, srUR, sgLL, sgUR)
  {
  }
}
