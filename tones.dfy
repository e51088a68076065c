/** The badge colours the components pick from (the Tailwind colour of each badge's classes). */
module Tones {

  datatype Tone = Blue | Yellow | Orange | Green | Gray | Red | Amber | Pink
}
