/** Whether interrupts are enabled (machine/interrupt.h). */
module Levels {
  datatype IntStatus = IntOff | IntOn
}
