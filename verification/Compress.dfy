/** The compression methods and their names (src/compress/compress.c), and messages on their way. */
module Compress {
  datatype Compression = Uncompressed | Zlib

  /** mbus_compress_method_string */
  function CompressionName(c: Compression): string {
    if c.Zlib? then "zlib" else "none"
  }

  /** mbus_compress_method_value: an unknown name, and zlib where it was not built in, mean none. */
  function CompressionNamed(name: string, zlib: bool): Compression {
    if name == "none" then Uncompressed
    else if zlib && name == "zlib" then Zlib
    else Uncompressed
  }

  /** A message in an output buffer: its text and the compression it was pushed with. */
  datatype Frame = Frame(compression: Compression, text: string)
}
