/** The three colour custom properties the views theme themselves with. */
module Theme {
  /** `--color-primary`, `--color-secondary`, `--color-tertiary`. */
  datatype Color = Primary | Secondary | Tertiary
}
