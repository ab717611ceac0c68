/** Theme colour keys that the pages pick by switching on a status or a type;
    the concrete colour values of the light and dark themes are not modelled. */
module Tones {

  datatype Tone = Primary | Secondary | Success | Info | Warning | Error | Gray
}
