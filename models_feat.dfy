// A feat is a named description carried by classes and races.
module ModelsFeat {
  datatype Feat = Feat(name: string, description: string)
}
