/**
 * The robot's battery.  The charge is kept in half power units (see the
 * Sensor module); the configured full charge and low threshold are whole
 * power units, as in the configuration.
 */
module Battery {
  import opened Sensor

  /**
   * The charge after asking for `units`: drawn down when the charge exceeds
   * the demand, otherwise the battery is refilled to `full` instead.
   */
  function Consumed(battery: int, units: int, full: int): int {
    if battery > units then battery - units else full
  }

  /** Margin `isRechargeNeeded` keeps over the cost of reaching a station: 7 units. */
  const RechargeMargin: int := 14

  /**
   * A charge in (0, full] stays in (0, full] under any non-negative demand:
   * it either drops by exactly the demand, to a positive value, or is
   * refilled.  Hence the battery never reads as depleted.
   */
  lemma ConsumedStaysCharged(battery: int, units: int, full: int)
    requires 0 < battery <= full && 0 <= units
    ensures 0 < Consumed(battery, units, full) <= full
    ensures Consumed(battery, units, full) == battery - units || Consumed(battery, units, full) == full
    ensures units == 0 ==> Consumed(battery, units, full) == battery
  {
  }

  class BatteryService {
    /** Current charge, in half units. */
    var battery: int
    /** `clean-sweep.battery.low-threshold`, in power units. */
    const lowBatteryThreshold: int
    /** `clean-sweep.battery.full-charge`, in power units. */
    const fullChargeValue: int

    /** The full charge in half units. */
    function FullCharge(): int {
      2 * fullChargeValue
    }

    /** The charge before `init` runs is 0. */
    constructor (lowBatteryThreshold: int, fullChargeValue: int)
      ensures this.lowBatteryThreshold == lowBatteryThreshold && this.fullChargeValue == fullChargeValue
      ensures battery == 0
    {
      this.lowBatteryThreshold := lowBatteryThreshold;
      this.fullChargeValue := fullChargeValue;
      battery := 0;
    }

    /** The battery is charged and no fuller than a full charge. */
    ghost predicate Charged()
      reads this
    {
      0 < battery <= FullCharge()
    }

    method Init()
      modifies this`battery
      ensures Halves(battery) == fullChargeValue as real
      ensures fullChargeValue > 0 ==> Charged()
    {
      battery := FullCharge();
    }

    /**
     * Draws `units` half units when the charge exceeds them, otherwise
     * recharges; a charged battery stays charged.
     */
    method ConsumePower(units: int)
      modifies this`battery
      ensures battery == Consumed(old(battery), units, FullCharge())
      ensures old(Charged()) && units >= 0 ==> Charged()
    {
      if battery > units {
        battery := battery - units;
      } else {
        Recharge();
      }
    }

    /** Whether the charge is at most the cost to reach a station plus the margin of 7 units. */
    function IsRechargeNeeded(batteryToReachStation: int): (r: bool)
      reads this
      ensures r <==> Halves(battery) <= Halves(batteryToReachStation) + 7.0
    {
      battery <= batteryToReachStation + RechargeMargin
    }

    function IsBatteryDepleted(): (r: bool)
      reads this
      ensures r <==> battery <= 0
      ensures Charged() ==> !r
    {
      battery <= 0
    }

    function HasSufficientPower(): (r: bool)
      reads this
      ensures r <==> Halves(battery) > lowBatteryThreshold as real
    {
      battery > 2 * lowBatteryThreshold
    }

    /** Refills the battery; doing it twice is doing it once. */
    method Recharge()
      modifies this`battery
      ensures battery == FullCharge()
    {
      battery := FullCharge();
    }
  }
}
