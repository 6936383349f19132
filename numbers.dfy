/** Integer helpers shared by the arm and intake models. */
module Numbers {
  /** The magnitude of x (std::abs / fabs on an integer-valued quantity). */
  function Abs(x: int): nat { if x < 0 then -x else x }
}
