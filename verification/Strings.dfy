/** The order of strings in Go, and of text in SQLite. */
module Strings {
  predicate Precedes(a: string, b: string) {
    b != "" && (a == "" || a[0] < b[0] || (a[0] == b[0] && Precedes(a[1..], b[1..])))
  }
}
