/** The random draws both games take as parameters. */
module Random {

  /** One Math.random() value. */
  predicate Unit(r: real) {
    0.0 <= r < 1.0
  }
}
