/**
  The values of a @WireMockTest annotation as the listener reads them, and the
  optional result of looking the annotation up on a class or a method
  (Java's null becomes None).
 */
module Annotation {

  datatype Option<+T> = None | Some(value: T)

  datatype WireMockTest = WireMockTest(
    port: int,                    // explicit port; 0 or less asks for a free port
    stubPath: string,             // classpath directory of stub mappings
    record: bool,                 // start recording against targetBaseUrl
    targetBaseUrl: string,
    ribbonServices: seq<string>)  // services redirected to localhost:<port>
}
