/** The three instance-fleet roles of a cluster and the sizing settings each one has.
    The configuration file and the request builder both name these settings
    `<setting>_<role>` (`instance_type_master`, `instance_num_spot_core`, ...); the model
    groups the seven settings of one role into one record. */
module Roles {
  import opened Python

  datatype Role = Master | Core | Task {
    /** `"MASTER"`, `"CORE"` or `"TASK"`: the fleet's name and type in the request. */
    function FleetName(): string {
      match this
      case Master => "MASTER"
      case Core => "CORE"
      case Task => "TASK"
    }

    /** The suffix of the role's parameter names. */
    function Suffix(): string {
      match this
      case Master => "master"
      case Core => "core"
      case Task => "task"
    }
  }

  /** The sizing settings of one role; each is `None` when the configuration leaves it out. */
  datatype RoleSizing = RoleSizing(
    instanceType: Option<string>,            // instance_type_<role>
    numOnDemand: Option<int>,                // instance_num_on_demand_<role>
    numSpot: Option<int>,                    // instance_num_spot_<role>
    ebsSize: Option<int>,                    // instance_ebs_size_<role>
    spotBidPercentage: Option<int>,          // spot_bid_percentage_of_on_demand_<role>
    spotProvisioningTimeout: Option<int>,    // spot_provisioning_timeout_<role>
    spotTimeoutToOnDemand: Option<bool>)     // spot_timeout_to_on_demand_<role>
}
