/** The parts of the vision API's `SaeMessage` protobuf that the connector reads.
    Protobuf parsing itself is not modelled: a parse is either a message or a failure. */
module SaeMessages {
  import opened Wrappers

  newtype byte = x: int | 0 <= x < 256

  datatype GeoCoordinate = GeoCoordinate(latitude: real, longitude: real)

  /** Normalised box corners, fractions of the image width and height. */
  datatype BoundingBox = BoundingBox(minX: real, minY: real, maxX: real, maxY: real)

  datatype Detection = Detection(
    boundingBox: BoundingBox,
    confidence: real,
    classId: int,
    objectId: seq<byte>,
    timestampUtcMs: int)

  /** `cameraLocation` is `None` exactly when `HasField('camera_location')` is false. */
  datatype VideoFrame = VideoFrame(
    timestampUtcMs: int,
    frameDataJpeg: seq<byte>,
    cameraLocation: Option<GeoCoordinate>)

  datatype SaeMessage = SaeMessage(frame: VideoFrame, detections: seq<Detection>)

  /** protobuf's `DecodeError`, raised by `ParseFromString` on malformed bytes. */
  datatype DecodeError = DecodeError
}
