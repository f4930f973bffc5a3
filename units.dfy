/** The unit factors the scripts share. ASE reads the energies of the
    structure files as Hartree and converts them to eV, so forces read back
    through ASE are divided by the Hartree-to-eV factor again; Quantum
    Espresso reports energies in Rydberg and lengths in Bohr. */
module Units {
  import opened Geometry

  /** One Hartree in eV. */
  const HartreeInEv: real := 27.211386245988

  /** `rydberg`: one Rydberg in eV. */
  const RydbergInEv: real := 0.5 * HartreeInEv

  /** `bohr`: one Bohr radius in Angstrom. */
  const BohrInAngstrom: real := 0.529177210903

  /** Forces read through ASE divided by the Hartree factor. */
  function Converted(f: Field): (r: Field)
    ensures |r| == |f| && forall i :: 0 <= i < |f| ==> Scale(HartreeInEv, r[i]) == f[i]
  {
    seq(|f|, i requires 0 <= i < |f| => Vec3(f[i].x / HartreeInEv, f[i].y / HartreeInEv, f[i].z / HartreeInEv))
  }
}
