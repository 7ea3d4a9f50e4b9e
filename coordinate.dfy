/**
 * src/models/mod.rs: a geographic coordinate in degrees. The source holds `f64` values;
 * the model uses `real`. The haversine distance and bearing are not part of this model.
 */
module Geo {
  datatype Coordinate = Coordinate(latitude: real, longitude: real)
}
