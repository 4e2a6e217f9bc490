/** Semantic classes of communication flows (fleetqox/model.py). */
module FlowModel {

  datatype FlowClass = Safety | Control | Coordination | State | Perception | HumanQoe | Debug | Bulk
}
