/** The channel-order enumeration of the converter's public header.
 *
 *  The C++ enum gives five names to only three values: MCO_BGRA is
 *  declared equal to MCO_BGR and MCO_RGBA equal to MCO_RGB, so an equality
 *  test between two orders cannot tell a 3-channel order from its
 *  4-channel namesake.  The model keeps exactly that aliasing.
 */
module MatColorOrders {

  /** The values the enum can take: 0, 1 and 2. */
  newtype MatColorOrder = x: int | 0 <= x < 3

  const MCO_BGR: MatColorOrder := 0
  const MCO_RGB: MatColorOrder := 1
  const MCO_BGRA: MatColorOrder := MCO_BGR
  const MCO_RGBA: MatColorOrder := MCO_RGB
  // The enumerator after MCO_RGBA counts on from MCO_RGBA's value.
  const MCO_ARGB: MatColorOrder := MCO_RGBA + 1

  /** The aliases and the one value of its own. */
  lemma EnumValues()
    ensures MCO_BGRA == MCO_BGR && MCO_RGBA == MCO_RGB
    ensures MCO_ARGB != MCO_BGR && MCO_ARGB != MCO_RGB && MCO_BGR != MCO_RGB
  {
  }

  /** Every order is one of the three distinct values. */
  lemma ExactlyThreeOrders(o: MatColorOrder)
    ensures o == MCO_BGR || o == MCO_RGB || o == MCO_ARGB
  {
  }
}
