/** Annotations: documentation and application information attached to a node. */
module Annotations {
  import opened Wrappers
  import opened Basics

  /** An `annotation` element: an optional namespace and its entries, in order. */
  datatype Annotation = Annotation(namespace: Option<string>, body: seq<AnnotationBody>)

  /** The children an annotation may hold. */
  datatype AnnotationBody =
    | AppInfo(appInfo: AppInfo)
    | Documentation(documentation: Documentation)

  /** An `appinfo` element; only its source attribute is kept. */
  datatype AppInfo = AppInfo(source: Option<AnyURI>)

  /** A `documentation` element: source, language and its text pieces. */
  datatype Documentation = Documentation(source: Option<string>, xmlLang: Option<string>, body: seq<string>)
}
