/** The named LED and floor colours the controllers and loop functions use. */
module Colors {
  datatype Color = Black | White | Red | Green | Blue | Yellow | Gray50
}
