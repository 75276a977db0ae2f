/**
 * The lexical types of XML Schema the tree uses for attribute values.
 * They are plain strings: no lexical constraint is checked on them.
 */
module Basics {

  /** A URI reference (xs:anyURI). */
  type AnyURI = string

  /** A document-unique identifier (xs:ID). */
  type ID = string

  /** A name without a colon (xs:NCName). */
  type NCName = string

  /** A namespace-qualified name (xs:QName). */
  type QName = string

  /** A whitespace-normalised token (xs:token). */
  type Token = string

  /** An unsigned 32-bit integer: the type every numeric attribute is read as. */
  type U32 = n: int | 0 <= n < 0x1_0000_0000
}
