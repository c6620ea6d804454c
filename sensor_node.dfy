/** SensorNode: a trigger sphere at the front or back of a traffic car. A front sensor touching
    another car's back sensor tells its owner to hold a front-back contact. */
module Sensors {
  import opened TrafficCar

  datatype SensorType = Front | Back

  /** The pairing the sensors react to: a different car, this sensor at the front, theirs at the back. */
  predicate IsFrontToBack(self: SensorNode, other: SensorNode?)
    reads self, other
  {
    other != null && other.owner != self.owner && self.sensorType == Front && other.sensorType == Back
  }

  class SensorNode {
    var sensorType: SensorType
    var owner: CarAI?

    constructor (sensorType: SensorType, owner: CarAI?)
      ensures this.sensorType == sensorType && this.owner == owner
    {
      this.sensorType := sensorType;
      this.owner := owner;
    }

    /** Awake: an unset owner defaults to the CarAI found on the parent chain (`parentCar`). */
    method Awake(parentCar: CarAI?)
      modifies this`owner
      ensures owner == if old(owner) == null then parentCar else old(owner)
    {
      if owner == null {
        owner := parentCar;
      }
    }

    /** OnTriggerEnter with the sensor `other` found on the entering collider (null if none). */
    method OnTriggerEnter(other: SensorNode?)
      modifies owner
      ensures owner != null ==>
                owner.frontBackContacts == if IsFrontToBack(this, other)
                                           then old(owner.frontBackContacts) + {other.owner}
                                           else old(owner.frontBackContacts)
      ensures IsFrontToBack(this, other) && owner != null ==> owner.HasFrontBackContact()
      ensures owner != null ==> owner.OnlyContactsChanged()
    {
      if other == null || other.owner == owner {
        return;
      }
      if sensorType == Front && other.sensorType == Back && owner != null {
        owner.NotifyFrontBackEnter(other.owner);
      }
    }

    /** OnTriggerExit: the same filter, releasing the contact. */
    method OnTriggerExit(other: SensorNode?)
      modifies owner
      ensures owner != null ==>
                owner.frontBackContacts == if IsFrontToBack(this, other)
                                           then old(owner.frontBackContacts) - {other.owner}
                                           else old(owner.frontBackContacts)
      ensures owner != null ==> owner.OnlyContactsChanged()
    {
      if other == null || other.owner == owner {
        return;
      }
      if sensorType == Front && other.sensorType == Back && owner != null {
        owner.NotifyFrontBackExit(other.owner);
      }
    }
  }

  /** A contact entered and left again by the same pair of sensors leaves the owner's contact set
      as it was, unless that car was already held before the enter. */
  method EnterThenExit(self: SensorNode, other: SensorNode?)
    requires self.owner != null
    requires other != null ==> other.owner !in self.owner.frontBackContacts
    modifies self.owner
    ensures self.owner.frontBackContacts == old(self.owner.frontBackContacts)
    ensures self.owner.OnlyContactsChanged()
  {
    self.OnTriggerEnter(other);
    self.OnTriggerExit(other);
  }
}
