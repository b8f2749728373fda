/** Store paths, taken as names. */
module StorePath {
  type Path = string
}
