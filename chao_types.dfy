/**
 * The chao types and gif sizes. The `ChaoType` and `ChaoSize` enums live in
 * src/chao/chaoTypes.ts, which is not part of this model; the type values are
 * those listed in src/constants.ts.
 */
module ChaoTypes {

  /** Every `ChaoType` value, in the order src/constants.ts lists them. */
  const ChaoTypeValues: seq<string> := ["dark_chao", "neutral_chao", "hero_chao"]

  datatype ChaoSize = Small | Medium | Large
}
