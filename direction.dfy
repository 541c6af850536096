/** The four headings of the snake (src/dal/Direction.java). */
module DalDirection {

  datatype Direction = UP | DOWN | RIGHT | LEFT

  /**
   * `Direction.getDirectionByString`: the character associated with each
   * direction. The Java switch ends in `return 0`, which no enum value reaches.
   */
  function DirectionChar(d: Direction): (c: char)
    ensures c != 0 as char
    ensures d == UP ==> c == 210 as char
    ensures d == DOWN ==> c == 115 as char && c == 's'
    ensures d == RIGHT ==> c == 100 as char && c == 'd'
    ensures d == LEFT ==> c == 97 as char && c == 'a'
  {
    match d
    case UP => 210 as char
    case DOWN => 115 as char
    case RIGHT => 100 as char
    case LEFT => 97 as char
  }

  /** Different directions have different characters. */
  lemma DirectionCharInjective(d1: Direction, d2: Direction)
    ensures DirectionChar(d1) == DirectionChar(d2) <==> d1 == d2
  {
  }
}
